/**
 Which absence raised an import failure (`tests/open_packages.py`): the walk along an
 exception's chain, over exceptions that may cause one another in a circle.
 */
module OpenPackages {
  import opened Options

  const OPEN_PACKAGES: set<string> :=
    {"sayfirst_contract", "sayfirst_boundary", "sayfirst_control_plane", "sayfirst_quickstart"}

  /** An exception: whether it is a missing module and which, its cause and its context. */
  class Failure {
    const moduleNotFound: bool
    const name: Option<string>
    var cause: Failure?
    var context: Failure?

    constructor (moduleNotFound: bool, name: Option<string>)
      ensures this.moduleNotFound == moduleNotFound && this.name == name
      ensures cause == null && context == null
    {
      this.moduleNotFound, this.name := moduleNotFound, name;
      cause, context := null, null;
    }

    function Next(): Failure?
      reads this
    {
      if cause != null then cause else context
    }

    /** One of the packages themselves, and not a module inside one. */
    predicate NamesAnOpenPackage(): (b: bool)
      ensures b ==> moduleNotFound && name.Some?
      ensures moduleNotFound && name.Some? ==>
                (b <==> name.value == "sayfirst_contract" || name.value == "sayfirst_boundary"
                        || name.value == "sayfirst_control_plane" || name.value == "sayfirst_quickstart")
    {
      moduleNotFound && name.Some? && name.value in OPEN_PACKAGES
    }
  }

  /** The exceptions there are. Every heap is finite, so there is always such a set. */
  ghost predicate Closed(all: set<Failure>)
    reads all
  {
    forall e :: e in all ==> (e.cause != null ==> e.cause in all) && (e.context != null ==> e.context in all)
  }

  /** The exception `k` steps along the followed chain, or nothing when it has ended. */
  ghost function Along(error: Failure?, k: nat, all: set<Failure>): (e: Failure?)
    requires Closed(all) && (error != null ==> error in all)
    reads all
    ensures e != null ==> e in all
  {
    if error == null || k == 0 then error else Along(error.Next(), k - 1, all)
  }

  lemma {:induction false} OneStepAlong(error: Failure?, k: nat, all: set<Failure>)
    requires Closed(all) && (error != null ==> error in all)
    ensures var e := Along(error, k, all);
            && (e == null ==> Along(error, k + 1, all) == null)
            && (e != null && e.cause != null ==> Along(error, k + 1, all) == e.cause)
            && (e != null && e.cause == null ==> Along(error, k + 1, all) == e.context)
  {
    if error != null && k > 0 { OneStepAlong(error.Next(), k - 1, all); }
  }

  /** A set the chain starts in and never leaves but by ending holds all of it. */
  lemma {:induction false} TheChainStaysIn(error: Failure?, k: nat, all: set<Failure>, seen: set<Failure>)
    requires Closed(all) && (error != null ==> error in all && error in seen)
    requires forall e :: e in seen ==> e in all && (e.Next() == null || e.Next() in seen)
    ensures var e := Along(error, k, all); e == null || e in seen
  {
    if error != null && k > 0 { TheChainStaysIn(error.Next(), k - 1, all, seen); }
  }

  /** `k` is the first place on the chain that names an open package. */
  ghost predicate FirstAt(error: Failure?, k: nat, all: set<Failure>)
    requires Closed(all) && (error != null ==> error in all)
    reads all
  {
    && Along(error, k, all) != null && Along(error, k, all).NamesAnOpenPackage()
    && forall j: nat :: j < k ==> Along(error, j, all) != null && !Along(error, j, all).NamesAnOpenPackage()
  }

  /** The first open package named on the followed chain, and nothing exactly when none is:
      on every heap, whatever causes what. */
  method AbsentOpenPackage(error: Failure?, ghost all: set<Failure>) returns (package: Option<string>)
    requires Closed(all) && (error != null ==> error in all)
    ensures package.Some? ==> exists k: nat :: FirstAt(error, k, all) && Along(error, k, all).name == package
    ensures package.None? <==> forall k: nat ::
              Along(error, k, all) == null || !Along(error, k, all).NamesAnOpenPackage()
  {
    var seen: set<Failure> := {};
    var e := error;
    ghost var i: nat := 0;
    while e != null && e !in seen
      invariant seen <= all && e == Along(error, i, all)
      invariant forall x :: x in seen ==> !x.NamesAnOpenPackage() && (x.Next() == null || x.Next() == e || x.Next() in seen)
      invariant error == null || error == e || error in seen
      invariant forall j: nat :: j < i ==> Along(error, j, all) in seen
      decreases all - seen
    {
      seen := seen + {e};
      if e.NamesAnOpenPackage() {
        assert FirstAt(error, i, all);
        return e.name;
      }
      OneStepAlong(error, i, all);
      e := e.Next();
      i := i + 1;
    }
    forall k: nat ensures Along(error, k, all) == null || !Along(error, k, all).NamesAnOpenPackage() {
      TheChainStaysIn(error, k, all, seen);
    }
    return None;
  }
}
