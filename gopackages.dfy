/**
 * What the code generators read from `packages.Load`: a package's load
 * error, its error count, and the symbols of its scope, in scope order.
 */
module GoPackages {
  import opened Wrappers

  /** A symbol of the package scope: its name, whether it is exported, and its type's string. */
  datatype Symbol = Symbol(name: string, exported: bool, typeString: string)

  /** A loaded package: its import path, the error `packages.Load` returned, and the errors it printed. */
  datatype Package = Package(path: string, loadError: Option<string>, errorCount: nat, scope: seq<Symbol>)

  const NoExportedMemberMessage := "no exported member"
  const PackageErrorsMessage := "one or mor errors"

  /** The symbols of `scope` that `keep` accepts, in scope order. */
  function Select(scope: seq<Symbol>, keep: Symbol -> bool): (r: seq<Symbol>)
    ensures |r| <= |scope|
    ensures forall s :: s in r <==> s in scope && keep(s)
  {
    if scope == [] then []
    else (if keep(scope[0]) then [scope[0]] else []) + Select(scope[1..], keep)
  }

  /** Positions of the selected symbols in the scope. */
  function SelectIndices(scope: seq<Symbol>, keep: Symbol -> bool): seq<nat>
  {
    if scope == [] then []
    else
      var rest := Shift(SelectIndices(scope[1..], keep));
      if keep(scope[0]) then [0] + rest else rest
  }

  function Shift(idx: seq<nat>): (r: seq<nat>)
    ensures |r| == |idx| && forall k :: 0 <= k < |r| ==> r[k] == idx[k] + 1
  {
    seq(|idx|, k requires 0 <= k < |idx| => idx[k] + 1)
  }

  /** Each selected symbol sits in the scope at its recorded position. */
  lemma {:induction false} SelectIndicesMatch(scope: seq<Symbol>, keep: Symbol -> bool)
    ensures |SelectIndices(scope, keep)| == |Select(scope, keep)|
    ensures forall k :: 0 <= k < |Select(scope, keep)| ==>
      SelectIndices(scope, keep)[k] < |scope| && scope[SelectIndices(scope, keep)[k]] == Select(scope, keep)[k]
  {
    if scope != [] {
      SelectIndicesMatch(scope[1..], keep);
      var rest := SelectIndices(scope[1..], keep);
      var sel := Select(scope[1..], keep);
      var idx := SelectIndices(scope, keep);
      var r := Select(scope, keep);
      if keep(scope[0]) {
        assert r == [scope[0]] + sel;
        assert idx == [0] + Shift(rest);
        forall k | 1 <= k < |r|
          ensures idx[k] < |scope| && scope[idx[k]] == r[k]
        {
          assert idx[k] == rest[k - 1] + 1;
          assert scope[idx[k]] == scope[1..][rest[k - 1]];
        }
      } else {
        assert r == sel;
        assert idx == Shift(rest);
        forall k | 0 <= k < |r|
          ensures idx[k] < |scope| && scope[idx[k]] == r[k]
        {
          assert scope[idx[k]] == scope[1..][rest[k]];
        }
      }
    }
  }

  /** The recorded positions strictly increase. */
  lemma {:induction false} SelectIndicesIncrease(scope: seq<Symbol>, keep: Symbol -> bool)
    ensures forall k, l :: 0 <= k < l < |SelectIndices(scope, keep)| ==>
      SelectIndices(scope, keep)[k] < SelectIndices(scope, keep)[l]
  {
    if scope != [] {
      SelectIndicesIncrease(scope[1..], keep);
    }
  }

  /**
   * Selection keeps scope order: the selected symbols come from strictly
   * increasing positions of the scope.
   */
  lemma SelectPreservesOrder(scope: seq<Symbol>, keep: Symbol -> bool)
    ensures |SelectIndices(scope, keep)| == |Select(scope, keep)|
    ensures forall k :: 0 <= k < |Select(scope, keep)| ==>
      SelectIndices(scope, keep)[k] < |scope| && scope[SelectIndices(scope, keep)[k]] == Select(scope, keep)[k]
    ensures forall k, l :: 0 <= k < l < |Select(scope, keep)| ==>
      SelectIndices(scope, keep)[k] < SelectIndices(scope, keep)[l]
  {
    SelectIndicesMatch(scope, keep);
    SelectIndicesIncrease(scope, keep);
  }

  lemma {:induction false} SelectAppend(a: seq<Symbol>, b: seq<Symbol>, keep: Symbol -> bool)
    ensures Select(a + b, keep) == Select(a, keep) + Select(b, keep)
  {
    if a == [] {
      assert a + b == b;
    } else {
      assert (a + b)[1..] == a[1..] + b;
      SelectAppend(a[1..], b, keep);
    }
  }

  /** The loop of `loadExports`: appends, in scope order, every symbol `keep` accepts. */
  method CollectExports(scope: seq<Symbol>, keep: Symbol -> bool) returns (results: seq<Symbol>)
    ensures results == Select(scope, keep)
  {
    results := [];
    var i := 0;
    while i < |scope|
      invariant 0 <= i <= |scope|
      invariant results == Select(scope[..i], keep)
    {
      assert scope[..i + 1] == scope[..i] + [scope[i]];
      SelectAppend(scope[..i], [scope[i]], keep);
      if keep(scope[i]) {
        results := results + [scope[i]];
      }
      i := i + 1;
    }
    assert scope[..i] == scope;
  }

  /**
   * What `loadExports` returns for the filter `keep`: the load error, an
   * error when the package has errors, the accepted symbols in scope order,
   * or "no exported member" when there are none.
   */
  function Exports(pkg: Package, keep: Symbol -> bool): (r: Result<seq<Symbol>, string>)
    ensures pkg.loadError.Some? ==> r == Failure(pkg.loadError.value)
    ensures pkg.loadError.None? && pkg.errorCount > 0 ==> r == Failure(PackageErrorsMessage)
    ensures pkg.loadError.None? && pkg.errorCount == 0 ==>
      (r.Success? <==> exists s :: s in pkg.scope && keep(s))
    ensures pkg.loadError.None? && pkg.errorCount == 0 && r.Failure? ==> r.error == NoExportedMemberMessage
    ensures r.Success? ==> r.value != [] && forall s :: s in r.value <==> s in pkg.scope && keep(s)
    ensures r.Success? ==> r.value == Select(pkg.scope, keep)
  {
    if pkg.loadError.Some? then Failure(pkg.loadError.value)
    else if pkg.errorCount > 0 then Failure(PackageErrorsMessage)
    else
      var results := Select(pkg.scope, keep);
      if results == [] then Failure(NoExportedMemberMessage)
      else assert results[0] in results; Success(results)
  }

  /** An exported symbol whose type string is one of `types`. */
  predicate ListedExport(sym: Symbol, types: seq<string>)
  {
    sym.exported && sym.typeString in types
  }

  /**
   * `isTrigger`: an unexported symbol is refused; otherwise the loop over the
   * trigger types accepts it at the first type equal to its type string.
   */
  method IsListedExport(sym: Symbol, types: seq<string>) returns (b: bool)
    ensures b <==> sym.exported && exists i :: 0 <= i < |types| && types[i] == sym.typeString
    ensures b == ListedExport(sym, types)
  {
    if !sym.exported {
      return false;
    }
    var i := 0;
    while i < |types|
      invariant 0 <= i <= |types|
      invariant forall j :: 0 <= j < i ==> types[j] != sym.typeString
    {
      if types[i] == sym.typeString {
        return true;
      }
      i := i + 1;
    }
    return false;
  }

  /** `loadExports`: the error checks, then the scope loop. */
  method LoadExports(pkg: Package, keep: Symbol -> bool) returns (r: Result<seq<Symbol>, string>)
    ensures r == Exports(pkg, keep)
  {
    if pkg.loadError.Some? {
      return Failure(pkg.loadError.value);
    }
    if pkg.errorCount > 0 {
      return Failure(PackageErrorsMessage);
    }
    var results := CollectExports(pkg.scope, keep);
    if results == [] {
      return Failure(NoExportedMemberMessage);
    }
    return Success(results);
  }
}
