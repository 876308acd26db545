/**
 * The emulator's `function` interface, implemented by the Pub/Sub and HTTPS
 * trigger types, and the two loops over a registry that both server
 * revisions share word for word: keeping only the values that implement the
 * interface, and describing every entry into one backend.
 */
module Triggers {
  import opened Wrappers
  import opened GoModel
  import opened Manifest
  import PubSub
  import Https

  /** A value implementing `function`: one of the two trigger types. */
  datatype Function = PubSubFunction(pubsub: PubSub.Function) | HttpsFunction(https: Https.Function)
  {
    /** The `Callback` field that reflection finds. */
    function Callback(): CallbackValue
    {
      match this
      case PubSubFunction(p) => p.callback
      case HttpsFunction(h) => h.Callback()
    }

    /** Describing this value panics: a Pub/Sub function without a topic. */
    predicate MissingTopic()
    {
      PubSubFunction? && pubsub.topic == ""
    }

    /** The manifest entry this value appends under `symbolName`. */
    function Spec(symbolName: string, env: Env): (s: FunctionSpec)
      ensures s.id == symbolName && EntryPointSymbol(s.entryPoint) == Some(symbolName)
    {
      match this
      case PubSubFunction(p) => p.Spec(symbolName, env)
      case HttpsFunction(h) => h.Spec(symbolName)
    }

    /** The interface method, dispatched on the dynamic type. */
    method AddBackendDescription(symbolName: string, b: Backend, env: Env) returns (outcome: Outcome)
      modifies b
      ensures outcome.Panicked? <==> MissingTopic()
      ensures MissingTopic() ==> outcome.message == PubSub.MissingTopicMessage(symbolName) && unchanged(b)
      ensures !MissingTopic() ==> b.cloudFunctions == old(b.cloudFunctions) + [Spec(symbolName, env)]
      ensures b.requiredAPIs == old(b.requiredAPIs) && b.topics == old(b.topics) && b.schedules == old(b.schedules)
    {
      match this
      case PubSubFunction(p) =>
        outcome := p.AddBackendDescription(symbolName, b, env);
      case HttpsFunction(h) =>
        h.AddBackendDescription(symbolName, b);
        outcome := Returned;
    }
  }

  /** A value handed to `Serve`: a trigger, or anything else (a string, a plain func, ...). */
  datatype AnyValue = FunctionValue(fn: Function) | OtherValue(ty: GoType)

  /**
   * The first loop of `Serve`: keeps exactly the entries whose value
   * implements `function`, under their own names, and drops the rest silently.
   */
  method FilterFunctions(symbols: map<string, AnyValue>) returns (d: map<string, Function>)
    ensures forall k :: k in d <==> k in symbols && symbols[k].FunctionValue?
    ensures forall k :: k in d ==> d[k] == symbols[k].fn
  {
    d := map[];
    var remaining := symbols.Keys;
    while remaining != {}
      invariant remaining <= symbols.Keys
      invariant forall k :: k in d <==> k in symbols && k !in remaining && symbols[k].FunctionValue?
      invariant forall k :: k in d ==> d[k] == symbols[k].fn
      decreases remaining
    {
      var symbol :| symbol in remaining;
      if symbols[symbol].FunctionValue? {
        d := d[symbol := symbols[symbol].fn];
      }
      remaining := remaining - {symbol};
    }
  }

  /** What the manifest endpoint does: encode a complete backend, or panic before writing anything. */
  datatype ManifestResponse = Written(doc: Document) | Aborted(panic: string)

  lemma {:induction false} DistinctElements(s: seq<string>)
    requires forall i, j :: 0 <= i < j < |s| ==> s[i] != s[j]
    ensures |set x | x in s| == |s|
  {
    if s != [] {
      var t := s[1..];
      assert forall i, j :: 0 <= i < j < |t| ==> t[i] != t[j] by {
        forall i, j | 0 <= i < j < |t| ensures t[i] != t[j] {
          assert t[i] == s[i + 1] && t[j] == s[j + 1];
        }
      }
      DistinctElements(t);
      assert (set x | x in s) == {s[0]} + (set x | x in t);
      assert s[0] !in (set x | x in t);
    }
  }

  /** `cf` lists the descriptions of the registry entries named by `order`, one for one. */
  ghost predicate DescribedInOrder(cf: seq<FunctionSpec>, order: seq<string>, f: map<string, Function>, env: Env)
  {
    |cf| == |order| &&
    forall i :: 0 <= i < |order| ==>
      order[i] in f && !f[order[i]].MissingTopic() && cf[i] == f[order[i]].Spec(order[i], env)
  }

  /** The i-th description is filed under the i-th visited key. */
  lemma DescribedIds(cf: seq<FunctionSpec>, order: seq<string>, f: map<string, Function>, env: Env)
    requires DescribedInOrder(cf, order, f, env)
    ensures forall i :: 0 <= i < |cf| ==> cf[i].id == order[i]
  {
    forall i | 0 <= i < |cf| ensures cf[i].id == order[i] {
      assert cf[i] == f[order[i]].Spec(order[i], env);
    }
  }

  /** The ids of the descriptions are exactly the registry keys. */
  lemma DescribedKeys(cf: seq<FunctionSpec>, order: seq<string>, f: map<string, Function>, env: Env)
    requires DescribedInOrder(cf, order, f, env)
    requires forall k :: k in f ==> k in order
    ensures (set s | s in cf :: s.id) == f.Keys
  {
    DescribedIds(cf, order, f, env);
    forall s | s in cf ensures s.id in f.Keys {
      var i :| 0 <= i < |cf| && cf[i] == s;
    }
    forall k | k in f.Keys ensures k in (set s | s in cf :: s.id) {
      var i :| 0 <= i < |order| && order[i] == k;
      assert cf[i] in cf;
    }
  }

  /** Once every key has been visited exactly once, the list describes the registry as a whole. */
  lemma {:induction false} DescribedRegistry(cf: seq<FunctionSpec>, order: seq<string>, f: map<string, Function>, env: Env)
    requires DescribedInOrder(cf, order, f, env)
    requires forall i, j :: 0 <= i < j < |order| ==> order[i] != order[j]
    requires forall k :: k in f ==> k in order
    ensures |cf| == |f|
    ensures (set s | s in cf :: s.id) == f.Keys
    ensures forall i, j :: 0 <= i < j < |cf| ==> cf[i].id != cf[j].id
    ensures forall s :: s in cf ==> s.id in f && s == f[s.id].Spec(s.id, env)
  {
    DescribedIds(cf, order, f, env);
    DistinctElements(order);
    assert (set x | x in order) == f.Keys;
    DescribedKeys(cf, order, f, env);
    forall s | s in cf ensures s.id in f && s == f[s.id].Spec(s.id, env) {
      var i :| 0 <= i < |cf| && cf[i] == s;
    }
  }

  /**
   * `DescribeBackend`: starts from four empty collections, lets every registry
   * entry append its own description (in the map's unspecified order), and
   * encodes only after the loop, so a panicking entry means nothing is written.
   * On success every entry is described exactly once, under its own name, and
   * only the function list is filled.
   */
  method DescribeBackend(f: map<string, Function>, env: Env) returns (r: ManifestResponse)
    ensures r.Aborted? <==> exists k :: k in f && f[k].MissingTopic()
    ensures r.Aborted? ==> exists k :: k in f && f[k].MissingTopic() && r.panic == PubSub.MissingTopicMessage(k)
    ensures r.Written? ==> r.doc.requiredAPIs == map[] && r.doc.topics == [] && r.doc.schedules == []
    ensures r.Written? ==> |r.doc.cloudFunctions| == |f|
    ensures r.Written? ==> (set s | s in r.doc.cloudFunctions :: s.id) == f.Keys
    ensures r.Written? ==> forall i, j :: 0 <= i < j < |r.doc.cloudFunctions| ==>
      r.doc.cloudFunctions[i].id != r.doc.cloudFunctions[j].id
    ensures r.Written? ==> forall s :: s in r.doc.cloudFunctions ==> s.id in f && s == f[s.id].Spec(s.id, env)
  {
    var b := new Backend();
    var remaining := f.Keys;
    ghost var order: seq<string> := [];
    while remaining != {}
      invariant remaining <= f.Keys
      invariant b.requiredAPIs == map[] && b.topics == [] && b.schedules == []
      invariant DescribedInOrder(b.cloudFunctions, order, f, env)
      invariant forall i :: 0 <= i < |order| ==> order[i] !in remaining
      invariant forall i, j :: 0 <= i < j < |order| ==> order[i] != order[j]
      invariant forall k :: k in f ==> k in remaining || k in order
      decreases remaining
    {
      var symbol :| symbol in remaining;
      var outcome := f[symbol].AddBackendDescription(symbol, b, env);
      if outcome.Panicked? {
        return Aborted(outcome.message);
      }
      order := order + [symbol];
      remaining := remaining - {symbol};
    }
    DescribedRegistry(b.cloudFunctions, order, f, env);
    return Written(b.Snapshot());
  }
}
