/**
 * End-to-end uses of the model, in the shape of the library's test fixtures:
 * routers attached with `routing(_:)` and read back through `@Router`
 * properties, and the top-most controller of nested containers.
 */
module Scenarios {
  import opened Wrappers
  import opened NativeExtensions
  import opened RouterLookup

  const TestRouterType := SwiftType("HighwayTests", "TestRouter")
  const RewiredRouterType := SwiftType("HighwayTests", "RewiredRouter")
  const AnotherRouterType := SwiftType("HighwayTests", "AnotherRouter")
  const RoutingType := SwiftType("Highway", "Routing")

  /** Attaching a router and reading it back under its type's name returns that very instance. */
  method AttachThenGet(instance: Controller, ghost chain: seq<Controller>, routerType: SwiftType, router: RouterObject)
    returns (found: Option<RouterObject>)
    requires IsParentChain(chain) && chain[0] == instance && router.Conforms(routerType)
    modifies instance`attached
    ensures found == Some(router)
  {
    var _ := instance.Routing(routerType, router);
    assert IsParentChain(chain);
    found := Get(Declare(routerType), instance, chain);
  }

  /** A second attachment under the same type name replaces the first. */
  method AttachTwiceThenGet(instance: Controller, ghost chain: seq<Controller>, routerType: SwiftType,
                            first: RouterObject, second: RouterObject)
    returns (found: Option<RouterObject>)
    requires IsParentChain(chain) && chain[0] == instance
    requires first.Conforms(routerType) && second.Conforms(routerType)
    modifies instance`attached
    ensures found == Some(second)
  {
    var _ := instance.Routing(routerType, first);
    var _ := instance.Routing(routerType, second);
    assert IsParentChain(chain);
    found := Get(Declare(routerType), instance, chain);
  }

  /**
   * A `RewiredRouter`, a subclass of `TestRouter`, registers itself from
   * `TestRouter`'s initialiser, so under the key "TestRouter". A `@Router`
   * property of type `TestRouter` finds it; one named "Rewired" does not,
   * and neither does a property of type `AnotherRouter`, a router type with
   * nothing attached under its name.
   */
  method SubclassRouter() returns (byType: Option<RouterObject>, byAlias: Option<RouterObject>,
                                   unrelated: Option<RouterObject>, rewired: RouterObject)
    ensures byType == Some(rewired)
    ensures byAlias == None
    ensures unrelated == None
  {
    var controller := new Controller(null, null, Plain, 0);
    rewired := new RouterObject({RewiredRouterType, TestRouterType, RoutingType});
    var _ := controller.Routing(TestRouterType, rewired);
    byType := Get(Declare(TestRouterType), controller, [controller]);
    byAlias := Get(Declare(TestRouterType, Some("Rewired")), controller, [controller]);
    unrelated := Get(Declare(AnotherRouterType), controller, [controller]);
  }

  /**
   * A router attached to a navigation controller is found from its child
   * when parent search is on, and is a fatal miss when it is off.
   */
  method RouterOnParent() returns (searching: Option<RouterObject>, local: Option<RouterObject>, router: RouterObject)
    ensures searching == Some(router)
    ensures local == None
  {
    var root := new Controller(null, null, Plain, 1);
    var child := new Controller(root, null, Plain, 0);
    root.kind := Navigation(child);
    var appRouter := SwiftType("App", "AppRouter");
    router := new RouterObject({appRouter, RoutingType});
    var _ := root.Routing(appRouter, router);
    searching := Get(Declare(appRouter), child, [child, root]);
    local := Get(Declare(appRouter, searchParents := false), child, [child, root]);
  }

  /**
   * Two router types of different modules print as "AppRouter" and so share
   * a key. With module B's router on the child and module A's on the
   * parent, a property of A's type skips the child's entry, whose cast
   * fails, and finds the parent's; with parent search off it is a fatal miss.
   */
  method SameNameDifferentModules() returns (searching: Option<RouterObject>, local: Option<RouterObject>,
                                            fromA: RouterObject, fromB: RouterObject)
    ensures searching == Some(fromA)
    ensures local == None
  {
    var typeA := SwiftType("A", "AppRouter");
    var typeB := SwiftType("B", "AppRouter");
    var root := new Controller(null, null, Plain, 1);
    var child := new Controller(root, null, Plain, 0);
    root.kind := Navigation(child);
    fromA := new RouterObject({typeA, RoutingType});
    fromB := new RouterObject({typeB, RoutingType});
    var _ := root.Routing(typeA, fromA);
    var _ := child.Routing(typeB, fromB);
    searching := Get(Declare(typeA), child, [child, root]);
    local := Get(Declare(typeA, searchParents := false), child, [child, root]);
  }

  /**
   * The top-most controller of a navigation controller showing another
   * navigation controller showing a plain controller is that plain
   * controller; once something is presented on the outer container, the
   * presented controller is top-most instead.
   */
  method NestedNavigation() returns (leaf: Controller, overlay: Controller, before: Controller, after: Controller)
    ensures before == leaf
    ensures after == overlay
  {
    leaf := new Controller(null, null, Plain, 0);
    var inner := new Controller(null, null, Navigation(leaf), 1);
    var outer := new Controller(null, null, Navigation(inner), 2);
    ghost var h := {leaf, inner, outer};
    before := outer.TopMostViewController(h);
    overlay := new Controller(null, null, Plain, 0);
    outer.presented := overlay;
    h := h + {overlay};
    after := outer.TopMostViewController(h);
  }
}
