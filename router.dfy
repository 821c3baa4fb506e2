/**
 * The `@Router` property wrapper: a declared router dependency resolved on
 * access by searching the declaring controller and, optionally, its parents.
 */
module RouterLookup {
  import opened Wrappers
  import opened NativeExtensions

  /**
   * The wrapper's stored state for one declared property: the declared
   * router type `routable` (the wrapper's generic parameter), the optional
   * alias and the flag that allows searching parent controllers.
   */
  datatype Router = Router(routable: SwiftType, named: Option<string>, searchParents: bool)
  {
    /** The key looked up in each router table: the alias if one was given, else the type's printed name. */
    function NameForLookup(): (key: string)
      ensures named.Some? ==> key == named.value
      ensures named.None? ==> key == routable.name
    {
      match named
      case Some(alias) => alias
      case None => routable.name
    }
  }

  /** `init(named:searchParents:)`: no alias and parent search by default. */
  function Declare(routable: SwiftType, named: Option<string> := None, searchParents: bool := true): (r: Router)
    ensures r.routable == routable && r.named == named && r.searchParents == searchParents
  {
    Router(routable, named, searchParents)
  }

  /**
   * `chain` is a controller, its parent, its grandparent and so on up to a
   * controller without a parent: the parent chain is finite and acyclic.
   */
  ghost predicate IsParentChain(chain: seq<Controller>)
    reads chain
  {
    |chain| > 0 && chain[|chain| - 1].parent == null &&
    forall i :: 0 <= i < |chain| - 1 ==> chain[i].parent == chain[i + 1]
  }

  /** The table of `c` holds an entry under `key` that passes the cast `as? routable`. */
  ghost predicate Matches(c: Controller, key: string, routable: SwiftType)
    reads c
  {
    key in c.Routers() && c.Routers()[key].Conforms(routable)
  }

  /**
   * What a lookup from `chain[0]` resolves to: the entry at the first
   * controller whose entry under `key` passes the cast; parents are examined
   * only when `searchParents` holds. `None` is the fatal error.
   */
  ghost function Resolve(chain: seq<Controller>, key: string, routable: SwiftType, searchParents: bool): (found: Option<RouterObject>)
    requires |chain| > 0
    reads chain
    ensures found.Some? ==> found.value.Conforms(routable)
    decreases |chain|
  {
    if Matches(chain[0], key, routable) then Some(chain[0].Routers()[key])
    else if searchParents && |chain| > 1 then Resolve(chain[1..], key, routable, searchParents)
    else None
  }

  /**
   * The wrapper's getter for the property declared by `router` on `instance`.
   * `None` stands for the fatal error raised when no controller in the
   * searched scope holds a matching router.
   */
  method Get(router: Router, instance: Controller, ghost chain: seq<Controller>) returns (found: Option<RouterObject>)
    requires IsParentChain(chain) && chain[0] == instance
    ensures found == Resolve(chain, router.NameForLookup(), router.routable, router.searchParents)
    ensures found.Some? ==> found.value.Conforms(router.routable)
  {
    var controller := instance;
    var nameForLookup := router.NameForLookup();
    var searchParents := router.searchParents;
    ghost var i := 0;
    while true
      invariant 0 <= i < |chain| && controller == chain[i]
      invariant i == 0 || searchParents
      invariant Resolve(chain[i..], nameForLookup, router.routable, searchParents)
             == Resolve(chain, nameForLookup, router.routable, searchParents)
      decreases |chain| - i
    {
      var table := controller.Routers();
      if nameForLookup in table && table[nameForLookup].Conforms(router.routable) {
        found := Some(table[nameForLookup]);
        return;
      } else {
        var parent := controller.parent;
        if parent == null || !searchParents {
          break;
        }
        assert chain[i..][1..] == chain[i + 1..];
        controller := parent;
        i := i + 1;
      }
    }
    found := None;
  }

  /** The wrapper's setter: assigning through the property changes nothing. */
  method Set(router: Router, instance: Controller, newValue: RouterObject)
    ensures unchanged(instance)
  {
  }

  /** A found router passes the requested cast and sits in the table of a controller on the chain. */
  lemma {:induction false} ResolveSound(chain: seq<Controller>, key: string, routable: SwiftType, searchParents: bool)
    returns (i: nat)
    requires |chain| > 0 && Resolve(chain, key, routable, searchParents).Some?
    ensures i < |chain| && (searchParents || i == 0)
    ensures Matches(chain[i], key, routable)
    ensures Resolve(chain, key, routable, searchParents) == Some(chain[i].Routers()[key])
    ensures forall j :: 0 <= j < i ==> !Matches(chain[j], key, routable)
    decreases |chain|
  {
    if Matches(chain[0], key, routable) {
      i := 0;
    } else {
      var k := ResolveSound(chain[1..], key, routable, searchParents);
      i := k + 1;
      assert chain[1..][k] == chain[i];
      forall j | 0 <= j < i
        ensures !Matches(chain[j], key, routable)
      {
        if j > 0 {
          assert chain[1..][j - 1] == chain[j];
        }
      }
    }
  }

  /**
   * The nearest match wins: when `chain[i]` is the first controller with a
   * matching entry, and `i` is within the searched scope, its entry is found.
   */
  lemma {:induction false} ResolveFindsNearest(chain: seq<Controller>, key: string, routable: SwiftType, searchParents: bool, i: nat)
    requires i < |chain| && (searchParents || i == 0)
    requires Matches(chain[i], key, routable)
    requires forall j :: 0 <= j < i ==> !Matches(chain[j], key, routable)
    ensures Resolve(chain, key, routable, searchParents) == Some(chain[i].Routers()[key])
    decreases i
  {
    if i > 0 {
      assert !Matches(chain[0], key, routable);
      forall j | 0 <= j < i - 1
        ensures !Matches(chain[1..][j], key, routable)
      {
        assert chain[1..][j] == chain[j + 1];
      }
      ResolveFindsNearest(chain[1..], key, routable, searchParents, i - 1);
    }
  }

  /** With no matching entry in the searched scope the lookup fails. */
  lemma {:induction false} ResolveFailsWithoutMatch(chain: seq<Controller>, key: string, routable: SwiftType, searchParents: bool)
    requires |chain| > 0
    requires forall i :: 0 <= i < |chain| && (searchParents || i == 0) ==> !Matches(chain[i], key, routable)
    ensures Resolve(chain, key, routable, searchParents) == None
    decreases |chain|
  {
    if searchParents && |chain| > 1 {
      forall i | 0 <= i < |chain[1..]|
        ensures !Matches(chain[1..][i], key, routable)
      {
        assert chain[1..][i] == chain[i + 1];
      }
      ResolveFailsWithoutMatch(chain[1..], key, routable, searchParents);
    }
  }

  /** Without parent search only the declaring controller is examined. */
  lemma DeclaringControllerOnly(chain: seq<Controller>, key: string, routable: SwiftType)
    requires |chain| > 0
    ensures Resolve(chain, key, routable, false) ==
              if Matches(chain[0], key, routable) then Some(chain[0].Routers()[key]) else None
  {
  }

  /** A match on the declaring controller is returned whatever the flag says. */
  lemma DeclaringControllerFirst(chain: seq<Controller>, key: string, routable: SwiftType, searchParents: bool)
    requires |chain| > 0 && Matches(chain[0], key, routable)
    ensures Resolve(chain, key, routable, searchParents) == Some(chain[0].Routers()[key])
  {
  }

  /** An entry under the key that fails the cast does not end a parent search. */
  lemma FailedCastContinues(chain: seq<Controller>, key: string, routable: SwiftType)
    requires |chain| > 1
    requires key in chain[0].Routers() && !chain[0].Routers()[key].Conforms(routable)
    ensures Resolve(chain, key, routable, true) == Resolve(chain[1..], key, routable, true)
  {
  }

  /**
   * Controllers beyond the first match are never consulted: resolving over a
   * prefix of the chain that already holds a match gives the same router.
   */
  lemma {:induction false} ResolveIgnoresFartherAncestors(chain: seq<Controller>, key: string, routable: SwiftType, searchParents: bool, k: nat)
    requires 0 < k <= |chain|
    requires Resolve(chain[..k], key, routable, searchParents).Some?
    ensures Resolve(chain, key, routable, searchParents) == Resolve(chain[..k], key, routable, searchParents)
    decreases k
  {
    assert chain[..k][0] == chain[0];
    if !Matches(chain[0], key, routable) {
      assert k > 1;
      assert chain[..k][1..] == chain[1..][..k - 1];
      ResolveIgnoresFartherAncestors(chain[1..], key, routable, searchParents, k - 1);
    }
  }
}
