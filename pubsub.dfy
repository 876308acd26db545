/** Pub/Sub-triggered functions and how they describe themselves in the manifest. */
module PubSub {
  import opened Wrappers
  import opened GoModel
  import opened Manifest

  /** `V1.Publish`, the event type a function gets when it names none. */
  const Publish := "google.cloud.pubsub.topic.v1.messagePublished"

  /** The deployment options of the `runwith` package (not part of this model beyond its three fields). */
  datatype RunWithOptions = RunWithOptions(minInstances: int, maxInstances: int, availableMemoryMB: int)

  /** `fmt.Sprintf("projects/%s/topics/%s", project, topic)` */
  function ResourceName(project: string, topic: string): string
  {
    "projects/" + project + "/topics/" + topic
  }

  /** The index of the first '/' in `s`, if any. */
  function FirstSlash(s: string): (r: Option<nat>)
    ensures r.Some? ==> r.value < |s| && s[r.value] == '/' && '/' !in s[..r.value]
    ensures r.None? ==> '/' !in s
  {
    if s == [] then None
    else if s[0] == '/' then Some(0)
    else match FirstSlash(s[1..])
      case None => None
      case Some(i) =>
        assert s[..i + 1] == [s[0]] + s[1..][..i];
        Some(i + 1)
  }

  const ProjectsPrefix := "projects/"
  const TopicsInfix := "topics/"

  /** Reads a resource name back into its project and topic; the project ends at the first '/'. */
  function ParseResource(v: string): Option<(string, string)>
  {
    if |v| < |ProjectsPrefix| || v[..|ProjectsPrefix|] != ProjectsPrefix then None
    else
      var rest := v[|ProjectsPrefix|..];
      match FirstSlash(rest)
      case None => None
      case Some(i) =>
        var tail := rest[i + 1..];
        if |tail| < |TopicsInfix| || tail[..|TopicsInfix|] != TopicsInfix then None
        else Some((rest[..i], tail[|TopicsInfix|..]))
  }

  /**
   * The resource filter names its project and topic unambiguously: parsing it
   * gives both back, whatever the topic, provided the project holds no '/'.
   * An unset project gives the empty segment back, not an error.
   */
  lemma ResourceRoundTrip(project: string, topic: string)
    ensures '/' !in project ==> ParseResource(ResourceName(project, topic)) == Some((project, topic))
  {
    if '/' in project {
      return;
    }
    var v := ResourceName(project, topic);
    var rest := v[|ProjectsPrefix|..];
    assert v[..|ProjectsPrefix|] == ProjectsPrefix;
    assert rest == project + "/" + TopicsInfix + topic;
    var r := FirstSlash(rest);
    assert rest[|project|] == '/';
    if r.None? {
      assert false;
    }
    var i := r.value;
    assert i == |project|;
    assert rest[..i] == project;
    var tail := rest[i + 1..];
    assert tail == TopicsInfix + topic;
    assert tail[..|TopicsInfix|] == TopicsInfix;
    assert tail[|TopicsInfix|..] == topic;
  }

  /** The panic raised for a function without a topic; it names the symbol. */
  function MissingTopicMessage(symbolName: string): string
  {
    "pubsub.Function " + symbolName + " is missing required parameteer Topic"
  }

  datatype Function = Function(
    eventType: string,
    topic: string,
    region: string,
    runWith: RunWithOptions,
    callback: CallbackValue)
  {
    /** The event type a description reports: the declared one, or `V1.Publish` when none is declared. */
    function EffectiveEventType(): (t: string)
      ensures t != ""
      ensures eventType != "" ==> t == eventType
      ensures eventType == "" ==> t == Publish
    {
      if eventType == "" then Publish else eventType
    }

    /**
     * The manifest entry for this function under `symbolName`, with the
     * project read straight from `GCLOUD_PROJECT`.
     */
    function Spec(symbolName: string, env: Env): (s: FunctionSpec)
      ensures s.id == symbolName && EntryPointSymbol(s.entryPoint) == Some(s.id)
      ensures s.apiVersion.Number() == Some(2)
      ensures s.region == region && s.project == ""
      ensures s.trigger.eventType == EffectiveEventType() && s.trigger.serviceAccountEmail == ""
      ensures |s.trigger.eventFilters| == 1 && s.trigger.eventFilters[0].attribute == "resource"
      ensures s.trigger.eventFilters[0].value == ResourceName(Getenv(env, "GCLOUD_PROJECT"), topic)
      ensures '/' !in Getenv(env, "GCLOUD_PROJECT") ==>
        ParseResource(s.trigger.eventFilters[0].value) == Some((Getenv(env, "GCLOUD_PROJECT"), topic))
      ensures s.minInstances == runWith.minInstances && s.maxInstances == runWith.maxInstances
      ensures s.availableMemoryMB == runWith.availableMemoryMB
    {
      EntryPointRoundTrip(symbolName);
      ResourceRoundTrip(Getenv(env, "GCLOUD_PROJECT"), topic);
      FunctionSpec(
        GCFv2, EntryPoint(symbolName), symbolName, region, "",
        EventTrigger(EffectiveEventType(), [EventFilter("resource", ResourceName(Getenv(env, "GCLOUD_PROJECT"), topic))], ""),
        runWith.minInstances, runWith.maxInstances, runWith.availableMemoryMB)
    }

    /**
     * `AddBackendDescription` on a value receiver: an empty topic panics before
     * anything is appended; otherwise exactly one entry is appended and the rest
     * of the backend is left as it was. The defaulted event type lives only in
     * the receiver's copy.
     */
    method AddBackendDescription(symbolName: string, b: Backend, env: Env) returns (outcome: Outcome)
      modifies b
      ensures topic == "" ==> outcome == Panicked(MissingTopicMessage(symbolName)) && unchanged(b)
      ensures topic != "" ==> outcome == Returned
      ensures topic != "" ==> b.cloudFunctions == old(b.cloudFunctions) + [Spec(symbolName, env)]
      ensures b.requiredAPIs == old(b.requiredAPIs) && b.topics == old(b.topics) && b.schedules == old(b.schedules)
    {
      if topic == "" {
        return Panicked(MissingTopicMessage(symbolName));
      }
      var p := this;
      if p.eventType == "" {
        p := p.(eventType := Publish);
      }
      b.cloudFunctions := b.cloudFunctions + [FunctionSpec(
        GCFv2, EntryPoint(symbolName), symbolName, p.region, "",
        EventTrigger(p.eventType, [EventFilter("resource", ResourceName(Getenv(env, "GCLOUD_PROJECT"), p.topic))], ""),
        p.runWith.minInstances, p.runWith.maxInstances, p.runWith.availableMemoryMB)];
      return Returned;
    }
  }
}
