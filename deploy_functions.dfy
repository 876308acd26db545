/**
 * The deployer's code generator: it loads a user package, keeps the
 * exported variables of type `https.Function` or `pubsub.Function`, and
 * renders an entry point that hands them, by name, to the support
 * emulator's `Serve`.
 */
module DeployFunctions {
  import opened Wrappers
  import opened Text
  import opened GoPackages

  const HttpTriggerType := "github.com/inlined/go-functions/https.Function"
  const PubSubTriggerType := "github.com/inlined/go-functions/pubsub.Function"
  const TriggerTypes := [HttpTriggerType, PubSubTriggerType]

  /** A trigger to serve: the exported name and its type's string. */
  datatype Trigger = Trigger(name: string, typeName: string)

  /** `isTrigger`: an exported symbol whose type is one of the two SDK function types. */
  predicate IsTrigger(sym: Symbol)
    ensures IsTrigger(sym) <==> sym.exported && (sym.typeString == HttpTriggerType || sym.typeString == PubSubTriggerType)
  {
    ListedExport(sym, TriggerTypes)
  }

  /**
   * `extractTriggers`: fails exactly when loading fails; otherwise one
   * trigger per export, in scope order, carrying its name and type, and
   * every trigger has one of the two SDK function types.
   */
  method ExtractTriggers(pkg: Package) returns (r: Result<seq<Trigger>, string>)
    ensures r.Success? <==> Exports(pkg, IsTrigger).Success?
    ensures r.Failure? ==> r.error == Exports(pkg, IsTrigger).error
    ensures r.Success? ==>
      (|r.value| == |Exports(pkg, IsTrigger).value| && forall k :: 0 <= k < |r.value| ==>
        r.value[k] == Trigger(Exports(pkg, IsTrigger).value[k].name, Exports(pkg, IsTrigger).value[k].typeString))
    ensures r.Success? ==> forall t :: t in r.value ==> t.typeName in TriggerTypes
  {
    var exports := LoadExports(pkg, IsTrigger);
    if exports.Failure? {
      return Failure(exports.error);
    }
    var triggers: seq<Trigger> := [];
    var i := 0;
    while i < |exports.value|
      invariant 0 <= i <= |exports.value|
      invariant |triggers| == i
      invariant forall k :: 0 <= k < i ==>
        triggers[k] == Trigger(exports.value[k].name, exports.value[k].typeString)
    {
      triggers := triggers + [Trigger(exports.value[i].name, exports.value[i].typeString)];
      i := i + 1;
    }
    forall t | t in triggers
      ensures t.typeName in TriggerTypes
    {
      var k :| 0 <= k < |triggers| && triggers[k] == t;
      assert exports.value[k] in exports.value;
    }
    return Success(triggers);
  }

  /** One entry of the map handed to `emulator.Serve`: the name bound to the package's variable. */
  function Entry(name: string): string
  {
    "\n\t\t\"" + name + "\": alias." + name + ","
  }

  function Entries(triggers: seq<Trigger>): (entries: seq<string>)
    ensures |entries| == |triggers| && forall i :: 0 <= i < |triggers| ==> entries[i] == Entry(triggers[i].name)
  {
    seq(|triggers|, i requires 0 <= i < |triggers| => Entry(triggers[i].name))
  }

  const EntrypointOpening := "\npackage main\n\nimport (\n"

  function AliasImport(pkg: string): string
  {
    "\talias \"" + pkg + "\"\n"
  }

  const EntrypointServe :=
    "\t\"github.com/inlined/go-functions/support/emulator\"\n)\n\nfunc main() {\n\temulator.Serve(map[string]interface{}{"

  function EntrypointHead(pkg: string): string
  {
    EntrypointOpening + AliasImport(pkg) + EntrypointServe
  }

  const EntrypointTail := "\n\t})\n}\n"

  /**
   * `generateEntrypoint`: the program that imports the user package as
   * `alias` and serves one map entry per trigger.
   */
  function GenerateEntrypoint(pkg: string, triggers: seq<Trigger>): (text: string)
    ensures OccursAt(EntrypointHead(pkg), text, 0)
    ensures OccursAt(EntrypointTail, text, |text| - |EntrypointTail|)
  {
    var head, body := EntrypointHead(pkg), Concat(Entries(triggers));
    assert (head + body + EntrypointTail)[..|head|] == head;
    assert (head + body + EntrypointTail)[|head| + |body|..] == EntrypointTail;
    head + body + EntrypointTail
  }

  /** The entry point imports the user package under the name `alias`. */
  lemma EntrypointImportsPackage(pkg: string, triggers: seq<Trigger>)
    ensures OccursAt(AliasImport(pkg), GenerateEntrypoint(pkg, triggers), |EntrypointOpening|)
  {
    var c := EntrypointServe + Concat(Entries(triggers)) + EntrypointTail;
    assert GenerateEntrypoint(pkg, triggers) == EntrypointOpening + AliasImport(pkg) + c;
    OccursInMiddle(EntrypointOpening, AliasImport(pkg), c);
  }

  /**
   * Every trigger gets its own entry, binding its name to the package's
   * variable, and the entries follow the trigger order.
   */
  lemma EntrypointServesEveryTrigger(pkg: string, triggers: seq<Trigger>, i: nat)
    requires i < |triggers|
    ensures OccursAt(Entry(triggers[i].name), GenerateEntrypoint(pkg, triggers),
      |EntrypointHead(pkg)| + Offset(Entries(triggers), i))
    ensures i + 1 < |triggers| ==> Offset(Entries(triggers), i) < Offset(Entries(triggers), i + 1)
  {
    var entries := Entries(triggers);
    ConcatAt(entries, i);
    assert OccursAt(Entry(triggers[i].name), Concat(entries), Offset(entries, i));
    OccursShift(Entry(triggers[i].name), Concat(entries), Offset(entries, i), EntrypointHead(pkg), EntrypointTail);
  }
}
