# Highway: router lookup and controller descent

Highway lets a `UIViewController` declare router dependencies with the
`@Router` property wrapper. It resolves them on access by looking in the
controller's router table, then in its parents' tables. Routers are attached
with `routing(_:)`, which stores them in a per-controller table keyed by type
name. A second helper, `topMostViewController()`, descends through presented,
navigation and tab bar controllers to the controller currently on screen.

The model has four modules:

- `Wrappers` (`wrappers.dfy`): the `Option` type.
- `NativeExtensions` (`native_extensions.dfy`): the controller class, UIKit's
  view controller reduced to the properties the library reads. It holds
  `parent`, `presented`, a `kind` (plain, navigation with its visible
  controller, or tab bar with its selected controller) and the
  associated-object slot that stores the router table. On it are the `routers`
  getter and setter, `routing(_:)` and `topMostViewController()`, with lemmas
  relating the descent to paths along active children.
- `RouterLookup` (`router.dfy`): the property wrapper's state, its lookup key,
  its getter as a loop over the parent chain, its no-op setter, and the
  specification function `Resolve` with lemmas about it. The lemmas cover
  nearest match, search scope, skipped entries and soundness.
- `Scenarios` (`scenarios.dfy`): the library's test fixtures replayed on the
  model. A subclass router registers under its superclass's name. An alias
  lookup misses. A router attached to a parent is found or missed depending on
  the flag. Nested navigation controllers, and an overlay presented on them,
  are descended.

Modelling choices:

- A Swift type is a `SwiftType`: its qualifier (declaring module and
  enclosing types) and its own name. `String(describing:)` prints only the
  name, so types from different modules can share a table key.
- A router is an object whose `types` set lists every type it can be cast to.
  The cast `as? Routable` succeeds exactly when `Routable` is in that set.
  This is how a `RewiredRouter` passes as a `TestRouter`, and how an entry
  of another module's same-named type fails the cast.
- `routing(_:)` keys the entry by the printed name of the router's *static*
  type, which is Swift's generic parameter. The model passes that type as
  `routerType`. It requires
  the instance to conform to that type, as Swift's type checker guarantees.
- The fatal error of a failed lookup is the result `None`.
- A finite parent chain is given to the getter as a ghost sequence. The
  sequence runs from the declaring controller to a controller without a
  parent. The loop's termination measure is the distance to its end.
- The descent is well-founded because of a ghost `rank` on each controller:
  every presented or contained child ranks strictly lower. It works over a
  ghost set of controllers closed under those children (`Closed`).

## Model

| member | source | states |
|---|---|---|
| `RouterLookup.Router.NameForLookup` | Sources/Highway/Router.swift:89-91 | the lookup key is the alias when one was given, otherwise the declared router type's name |
| `RouterLookup.Declare` | Sources/Highway/Router.swift:84-87 | the wrapper stores the alias and the flag unchanged; with no arguments there is no alias and parent search is on |
| `RouterLookup.Resolve` | Sources/Highway/Router.swift:52-66 | what the walk resolves to; any router it yields passes the cast to the requested type |
| `RouterLookup.Get` | Sources/Highway/Router.swift:48-67 | the getter's loop returns exactly `Resolve` over the parent chain for the wrapper's key, type and flag, and it terminates on the finite chain; a returned router passes the cast to the declared type; `None` is the fatal error |
| `RouterLookup.Set` | Sources/Highway/Router.swift:68 | assigning through the wrapper leaves the controller unchanged |
| `RouterLookup.ResolveSound` | Sources/Highway/Router.swift:52-62 | a successful lookup returns the entry of the first controller in the searched scope whose entry passes the cast, the declaring controller itself when parent search is off |
| `RouterLookup.ResolveFindsNearest` | Sources/Highway/Router.swift:52-62 | when the i-th controller of the chain is the first with a matching entry and lies in the searched scope, its entry is returned: nearer controllers win |
| `RouterLookup.ResolveFailsWithoutMatch` | Sources/Highway/Router.swift:52-66 | when no controller in the searched scope has a matching entry, the lookup ends in the fatal error |
| `RouterLookup.DeclaringControllerOnly` | Sources/Highway/Router.swift:53-58 | with parent search off only the declaring controller is examined: a miss there is fatal whatever the parents hold |
| `RouterLookup.DeclaringControllerFirst` | Sources/Highway/Router.swift:53-55 | a matching entry on the declaring controller is returned whatever the flag says |
| `RouterLookup.FailedCastContinues` | Sources/Highway/Router.swift:53-61 | an entry under the key that fails the cast does not stop a parent search; the lookup continues at the parent |
| `RouterLookup.ResolveIgnoresFartherAncestors` | Sources/Highway/Router.swift:52-62 | once a prefix of the chain yields a router, the controllers above it do not change the result |
| `NativeExtensions.Controller.Routers` | Sources/Highway/Utils/NativeExtensions.swift:60-62 | the getter yields the stored table, or the empty table when none was stored |
| `NativeExtensions.Controller.constructor` | Sources/Highway/Utils/NativeExtensions.swift:59-62 | a freshly created controller has nothing stored, so its router table is empty |
| `NativeExtensions.Controller.SetRouters` | Sources/Highway/Utils/NativeExtensions.swift:63-65 | the setter stores the table, and the getter returns it afterwards |
| `NativeExtensions.Controller.Routing` | Sources/Highway/Utils/NativeExtensions.swift:32-36 | after attaching, the table maps the router's type name to that router; other keys keep their values; an earlier entry under the same key is replaced; the controller itself is returned |
| `NativeExtensions.Controller.TopMostViewController` | Sources/Highway/Utils/NativeExtensions.swift:40-54 | the result lies in the hierarchy, has nothing presented and shows no navigation or tab child; a controller with none of these is its own result |
| `NativeExtensions.TopMostFollowsActiveChild` | Sources/Highway/Utils/NativeExtensions.swift:41-53 | the result equals the result of the active child: the presented controller first, then the visible or selected child; a controller with no active child returns itself |
| `NativeExtensions.TopMostIdempotent` | Sources/Highway/Utils/NativeExtensions.swift:40-54 | applying the descent to its own result returns that result again |
| `NativeExtensions.TopMostIsEndOfActivePath` | Sources/Highway/Utils/NativeExtensions.swift:40-54 | every descent along active children that ends at a controller with no active child ends at the top-most controller |
| `NativeExtensions.TopMostHasActivePath` | Sources/Highway/Utils/NativeExtensions.swift:40-54 | the top-most controller is reached from the start by descending active children within the hierarchy |
| `Scenarios.AttachThenGet` | Sources/Highway/Utils/NativeExtensions.swift:34 | a router attached to a controller is returned, as the same instance, by a lookup of its type from that controller |
| `Scenarios.AttachTwiceThenGet` | Sources/Highway/Utils/NativeExtensions.swift:34 | after two attachments under the same type name, a lookup returns the second router |
| `Scenarios.SubclassRouter` | Tests/HighwayTests/TestObjects.swift:31-72 | a `RewiredRouter` registered from `TestRouter`'s initialiser is found by a `TestRouter` property; the "Rewired" alias and `AnotherRouter`, a router type with nothing attached under its name, miss |
| `Scenarios.RouterOnParent` | Sources/Highway/Router.swift:57-61 | a router on the parent is found from the child with parent search on, and is a fatal miss with it off |
| `Scenarios.SameNameDifferentModules` | Sources/Highway/Router.swift:53-61 | two types that print alike share a key; the child's entry of the other module fails the cast, so the lookup goes on to the parent's router, and misses fatally with parent search off |
| `Scenarios.NestedNavigation` | Sources/Highway/Utils/NativeExtensions.swift:41-46 | navigation inside navigation descends to the innermost visible controller; a presented controller on the outer container takes precedence |

## Left out

- Logging through `Logger.highway.info` on attachment and on successful lookup is diagnostic output only.
- The text of the fatal error message is not modelled. The failure itself is the result `None`.
- The Objective-C associated-object calls are replaced by a plain field on the controller. The getter's cast `as? [String: AnyObject]` always succeeds in the model, because the slot is typed.
- UIKit's own rules for `presentedViewController`, `visibleViewController` and `selectedViewController` are not modelled. They are fields that the caller sets.
- Whether a controller is a navigation or tab bar controller is modelled as the `kind` field, not as a Swift class check.
- Weak references and retain cycles are memory management and are not modelled.
- `String(describing: T.self)` is taken to print exactly the `name` part of a `SwiftType`. Generic arguments and other decorations of printed names are not modelled.
- Table keys and aliases compare as exact sequences of characters. Swift's `String` equality and `Dictionary` hashing use Unicode canonical equivalence, so a key stored as "e" followed by a combining accent matches a lookup of "é" in Swift but not in the model. Aliases and type names are assumed to be in one normalization form.
- Thread confinement to the main thread is not modelled, since the model is sequential.
- The `Routing` protocol in `Sources/Highway/Routing.swift` is not modelled. This includes its no-op `complete(_:)` and its SwiftUI `ObservableObject` conformance, which have no behaviour to state.
- The `wrappedValue` declared `@available(*, unavailable)` is a compile-time stub and is not modelled.
- `RouterLookup.Get` requires a finite parent chain, and `NativeExtensions.Controller.TopMostViewController` requires an acyclic presentation and containment graph. UIKit guarantees both; the source code does not check them.
