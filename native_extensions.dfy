/**
 * The two `UIViewController` extensions of Highway: the per-controller router
 * table that `routing(_:)` writes into, and the descent to the top-most
 * visible controller. UIKit's controller graph is modelled by the class
 * `Controller`, whose fields stand for the properties UIKit exposes.
 */
module NativeExtensions {
  import opened Wrappers

  /**
   * A Swift type: its qualifier (the declaring module and any enclosing
   * types) and its own name. The cast `as?` tells types apart by both;
   * `String(describing: T.self)` prints only `name`, so distinct types can
   * print alike.
   */
  datatype SwiftType = SwiftType(qualifier: string, name: string)

  /**
   * A router instance. Identity is object identity. `types` is every type the
   * instance can be cast to (its class, the superclasses of that class and the
   * protocols they adopt), so `as? T` succeeds exactly when `T` is in it.
   */
  class RouterObject {
    const types: set<SwiftType>

    constructor (types: set<SwiftType>)
      ensures this.types == types
    {
      this.types := types;
    }

    /** The dynamic cast `as? t` succeeds on this instance. */
    predicate Conforms(t: SwiftType) {
      t in types
    }
  }

  /**
   * What a controller is as a container: a navigation controller with its
   * visible controller, a tab bar controller with its selected controller, or
   * neither.
   */
  datatype Container =
    | Plain
    | Navigation(visible: Controller?)
    | TabBar(selected: Controller?)
  {
    /** The child the container currently shows, if any. */
    function Child(): (child: Controller?) {
      match this
      case Plain => null
      case Navigation(visible) => visible
      case TabBar(selected) => selected
    }
  }

  class Controller {
    var parent: Controller?
    var presented: Controller?
    var kind: Container
    /** The associated-object slot holding the router table; `None` until a table was stored. */
    var attached: Option<map<string, RouterObject>>
    /** Height in the presentation/containment graph: every child sits strictly lower (see `Closed`). */
    ghost var rank: nat

    /** A controller as UIKit hands it over: nothing attached yet. */
    constructor (parent: Controller?, presented: Controller?, kind: Container, ghost rank: nat)
      ensures this.parent == parent && this.presented == presented && this.kind == kind && this.rank == rank
      ensures Routers() == map[]
    {
      this.parent := parent;
      this.presented := presented;
      this.kind := kind;
      this.rank := rank;
      this.attached := None;
    }

    /** The `routers` getter: the stored table, or an empty table when none was stored. */
    function Routers(): (table: map<string, RouterObject>)
      reads this
      ensures attached.Some? ==> table == attached.value
      ensures attached.None? ==> table == map[]
    {
      match attached
      case Some(table) => table
      case None => map[]
    }

    /** The `routers` setter: stores a copy of the table in the associated-object slot. */
    method SetRouters(table: map<string, RouterObject>)
      modifies this`attached
      ensures Routers() == table
    {
      attached := Some(table);
    }

    /**
     * `routing(_:)`: attaches `router` under the printed name of its static
     * type `routerType` and returns the controller itself for chaining.
     */
    method Routing(routerType: SwiftType, router: RouterObject) returns (self: Controller)
      requires router.Conforms(routerType)
      modifies this`attached
      ensures self == this
      ensures routerType.name in Routers() && Routers()[routerType.name] == router
      ensures Routers().Keys == old(Routers()).Keys + {routerType.name}
      ensures forall k :: k in old(Routers()) && k != routerType.name ==> Routers()[k] == old(Routers())[k]
    {
      var table := Routers();
      table := table[routerType.name := router];
      SetRouters(table);
      self := this;
    }

    /**
     * The active child: a presented controller takes precedence over the
     * child a navigation or tab bar container shows.
     */
    function ActiveChild(): (child: Controller?)
      reads this
    {
      if presented != null then presented else kind.Child()
    }

    /**
     * `topMostViewController()`: follows the presented controller, then a
     * navigation controller's visible controller, then a tab bar controller's
     * selected controller, and stops at a controller with none of these.
     */
    function TopMostViewController(ghost h: set<Controller>): (top: Controller)
      requires this in h && Closed(h)
      reads h
      ensures top in h
      ensures top.presented == null && top.kind.Child() == null
      ensures top.rank <= rank
      ensures presented == null && kind.Child() == null ==> top == this
      decreases rank
    {
      if presented != null then
        presented.TopMostViewController(h)
      else
        match kind
        case Navigation(visible) =>
          if visible != null then visible.TopMostViewController(h) else this
        case TabBar(selected) =>
          if selected != null then selected.TopMostViewController(h) else this
        case Plain => this
    }
  }

  /**
   * `h` is a finite piece of the controller graph closed under presentation
   * and containment, and acyclic: each child ranks strictly below its parent.
   */
  ghost predicate Closed(h: set<Controller>)
    reads h
  {
    forall c :: c in h ==>
      (c.presented != null ==> c.presented in h && c.presented.rank < c.rank) &&
      (c.kind.Child() != null ==> c.kind.Child() in h && c.kind.Child().rank < c.rank)
  }

  /** `path` descends from controller to active child at every step. */
  ghost predicate IsActivePath(path: seq<Controller>)
    reads path
  {
    forall i :: 0 <= i < |path| - 1 ==> path[i].ActiveChild() == path[i + 1]
  }

  /** One step of the descent: the result is that of the active child, or the controller itself when it has none. */
  lemma TopMostFollowsActiveChild(c: Controller, h: set<Controller>)
    requires c in h && Closed(h)
    ensures c.ActiveChild() != null ==>
              c.ActiveChild() in h && c.TopMostViewController(h) == c.ActiveChild().TopMostViewController(h)
    ensures c.ActiveChild() == null ==> c.TopMostViewController(h) == c
  {
  }

  /** The result has no active child, so descending from it again returns it. */
  lemma TopMostIdempotent(c: Controller, h: set<Controller>)
    requires c in h && Closed(h)
    ensures c.TopMostViewController(h).TopMostViewController(h) == c.TopMostViewController(h)
  {
  }

  /**
   * Every descent from `c` along active children that ends at a controller
   * without one ends at `c.TopMostViewController(h)`.
   */
  lemma {:induction false} TopMostIsEndOfActivePath(c: Controller, h: set<Controller>, path: seq<Controller>)
    requires c in h && Closed(h)
    requires |path| > 0 && path[0] == c && IsActivePath(path)
    requires path[|path| - 1].ActiveChild() == null
    ensures path[|path| - 1] == c.TopMostViewController(h)
  {
    if |path| > 1 {
      var next := path[1];
      TopMostFollowsActiveChild(c, h);
      assert IsActivePath(path[1..]) by {
        forall i | 0 <= i < |path[1..]| - 1
          ensures path[1..][i].ActiveChild() == path[1..][i + 1]
        {
          assert path[i + 1].ActiveChild() == path[i + 2];
        }
      }
      TopMostIsEndOfActivePath(next, h, path[1..]);
    }
  }

  /** The top-most controller is reached from `c` by descending active children. */
  lemma {:induction false} TopMostHasActivePath(c: Controller, h: set<Controller>) returns (path: seq<Controller>)
    requires c in h && Closed(h)
    ensures |path| > 0 && path[0] == c && IsActivePath(path)
    ensures path[|path| - 1] == c.TopMostViewController(h)
    ensures forall i :: 0 <= i < |path| ==> path[i] in h
    decreases c.rank
  {
    TopMostFollowsActiveChild(c, h);
    var next := c.ActiveChild();
    if next == null {
      path := [c];
    } else {
      var rest := TopMostHasActivePath(next, h);
      path := [c] + rest;
      assert path[1..] == rest;
    }
  }
}
