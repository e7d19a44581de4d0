/**
 * The route registry: the decorators that record route definitions and
 * middleware lists per controller class, and the readers the router uses.
 * Storage is the fallback metadata table, keyed by class identity.
 */
module RoutingMapping {
  import opened Wrappers
  import opened Http
  import Metadata

  /** What one `@RequestMapping(path, method)` on a method records. */
  datatype RouteDefinition = RouteDefinition(path: string, verb: HttpMethod, handlerName: string)

  /** The three private metadata keys (`Symbol('routes')`, ...). */
  datatype MetaKey = RoutesKey | RouteMiddlewaresKey | ControllerMiddlewaresKey

  /** What is stored under each key. */
  datatype MetaValue =
    | RouteList(routes: seq<RouteDefinition>)
    | MiddlewareMap(byHandler: map<string, seq<Middleware>>)
    | MiddlewareList(middlewares: seq<Middleware>)

  type Table = Metadata.Table<ClassId, MetaKey, MetaValue>
  type Store = Metadata.MetadataStore<ClassId, MetaKey, MetaValue>

  /** `getRoutes`: the class's route definitions, or `[]` when none were registered. */
  function GetRoutes(tbl: Table, target: ClassId): (r: seq<RouteDefinition>)
    ensures Metadata.Lookup(tbl, target, RoutesKey).None? ==> r == []
    ensures forall rs :: Metadata.Lookup(tbl, target, RoutesKey) == Some(RouteList(rs)) ==> r == rs
  {
    match Metadata.Lookup<ClassId, MetaKey, MetaValue>(tbl, target, RoutesKey)
    case Some(RouteList(rs)) => rs
    case _ => []
  }

  /** `getControllerMiddlewares`: the class-level list, or `[]`. */
  function GetControllerMiddlewares(tbl: Table, target: ClassId): (r: seq<Middleware>)
    ensures Metadata.Lookup(tbl, target, ControllerMiddlewaresKey).None? ==> r == []
    ensures forall mws :: Metadata.Lookup(tbl, target, ControllerMiddlewaresKey) == Some(MiddlewareList(mws)) ==> r == mws
  {
    match Metadata.Lookup<ClassId, MetaKey, MetaValue>(tbl, target, ControllerMiddlewaresKey)
    case Some(MiddlewareList(mws)) => mws
    case _ => []
  }

  /** `getRouteMiddlewares`: the handler-name -> middleware-list map, or `{}`. */
  function GetRouteMiddlewares(tbl: Table, target: ClassId): (r: map<string, seq<Middleware>>)
    ensures Metadata.Lookup(tbl, target, RouteMiddlewaresKey).None? ==> r == map[]
    ensures forall m :: Metadata.Lookup(tbl, target, RouteMiddlewaresKey) == Some(MiddlewareMap(m)) ==> r == m
  {
    match Metadata.Lookup<ClassId, MetaKey, MetaValue>(tbl, target, RouteMiddlewaresKey)
    case Some(MiddlewareMap(m)) => m
    case _ => map[]
  }

  /** The middlewares registered for one handler; a name with no entry has none. */
  function MiddlewaresFor(byHandler: map<string, seq<Middleware>>, handlerName: string): (r: seq<Middleware>)
    ensures handlerName !in byHandler ==> r == []
    ensures handlerName in byHandler ==> r == byHandler[handlerName]
  {
    if handlerName in byHandler then byHandler[handlerName] else []
  }

  /** Member names every plain JavaScript object inherits from `Object.prototype`. */
  const ObjectPrototypeMembers: set<string> :=
    {"constructor", "toString", "toLocaleString", "valueOf", "hasOwnProperty", "isPrototypeOf",
     "propertyIsEnumerable", "__proto__", "__defineGetter__", "__defineSetter__", "__lookupGetter__", "__lookupSetter__"}

  /** Every class other than `target` reads exactly as before. */
  ghost predicate OtherClassesUnchanged(before: Table, after: Table, target: ClassId)
  {
    forall c, k :: c != target ==> Metadata.Lookup(after, c, k) == Metadata.Lookup(before, c, k)
  }

  /** The table after `@RequestMapping(def.path, def.verb)` on method `def.handlerName` of class `target`. */
  function AddRoute(tbl: Table, target: ClassId, def: RouteDefinition): (r: Table)
    ensures GetRoutes(r, target) == GetRoutes(tbl, target) + [def]
    ensures GetControllerMiddlewares(r, target) == GetControllerMiddlewares(tbl, target)
    ensures GetRouteMiddlewares(r, target) == GetRouteMiddlewares(tbl, target)
    ensures OtherClassesUnchanged(tbl, r, target)
  {
    Metadata.Set(tbl, target, RoutesKey, RouteList(GetRoutes(tbl, target) + [def]))
  }

  /** The table after `@Use(...mws)` on method `handlerName` of class `target`. */
  function AddRouteMiddlewares(tbl: Table, target: ClassId, handlerName: string, mws: seq<Middleware>): (r: Table)
    ensures var before := GetRouteMiddlewares(tbl, target);
            GetRouteMiddlewares(r, target) == before[handlerName := MiddlewaresFor(before, handlerName) + mws]
    ensures forall h :: h != handlerName ==>
              MiddlewaresFor(GetRouteMiddlewares(r, target), h) == MiddlewaresFor(GetRouteMiddlewares(tbl, target), h)
    ensures GetRoutes(r, target) == GetRoutes(tbl, target)
    ensures GetControllerMiddlewares(r, target) == GetControllerMiddlewares(tbl, target)
    ensures OtherClassesUnchanged(tbl, r, target)
  {
    var byHandler := GetRouteMiddlewares(tbl, target);
    Metadata.Set(tbl, target, RouteMiddlewaresKey,
                 MiddlewareMap(byHandler[handlerName := MiddlewaresFor(byHandler, handlerName) + mws]))
  }

  /**
   * `@Use` as written: the stored map is a plain object, so for a handler name
   * without an own entry that names an inherited member, `map[propertyKey] || []`
   * yields that member (a function or an object) and spreading it throws a
   * TypeError before anything is stored.
   */
  function AddRouteMiddlewaresAsWritten(tbl: Table, target: ClassId, handlerName: string, mws: seq<Middleware>): (r: Result<Table, Error>)
    ensures handlerName !in GetRouteMiddlewares(tbl, target) && handlerName in ObjectPrototypeMembers ==> r == Failure(TypeError)
    ensures handlerName in GetRouteMiddlewares(tbl, target) || handlerName !in ObjectPrototypeMembers ==>
              r == Success(AddRouteMiddlewares(tbl, target, handlerName, mws))
  {
    if handlerName !in GetRouteMiddlewares(tbl, target) && handlerName in ObjectPrototypeMembers then Failure(TypeError)
    else Success(AddRouteMiddlewares(tbl, target, handlerName, mws))
  }

  /**
   * `@Use(mw)` on a method named `toString` throws as written; the model
   * records `[mw]` for it like for any other name.
   */
  lemma UseOnInheritedNameThrows(target: ClassId, mw: Middleware)
    ensures AddRouteMiddlewaresAsWritten(map[], target, "toString", [mw]) == Failure(TypeError)
    ensures MiddlewaresFor(GetRouteMiddlewares(AddRouteMiddlewares(map[], target, "toString", [mw]), target), "toString") == [mw]
  {
  }

  /** The table after `@UseController(...mws)` on class `target`. */
  function AddControllerMiddlewares(tbl: Table, target: ClassId, mws: seq<Middleware>): (r: Table)
    ensures GetControllerMiddlewares(r, target) == GetControllerMiddlewares(tbl, target) + mws
    ensures GetRoutes(r, target) == GetRoutes(tbl, target)
    ensures GetRouteMiddlewares(r, target) == GetRouteMiddlewares(tbl, target)
    ensures OtherClassesUnchanged(tbl, r, target)
  {
    Metadata.Set(tbl, target, ControllerMiddlewaresKey,
                 MiddlewareList(GetControllerMiddlewares(tbl, target) + mws))
  }

  /** `RequestMapping(path, verb)` applied to method `propertyKey` of class `target`. */
  method RequestMapping(md: Store, path: string, verb: HttpMethod, target: ClassId, propertyKey: string)
    modifies md
    ensures md.store == AddRoute(old(md.store), target, RouteDefinition(path, verb, propertyKey))
  {
    var stored := md.GetMetadata(RoutesKey, target);
    var routes := match stored case Some(RouteList(rs)) => rs case _ => [];
    routes := routes + [RouteDefinition(path, verb, propertyKey)];
    Metadata.SetAfterTouch(old(md.store), target, RoutesKey, RouteList(routes));
    md.DefineMetadata(RoutesKey, RouteList(routes), target);
  }

  /** `Use(...mws)` applied to method `propertyKey` of class `target`. */
  method Use(md: Store, mws: seq<Middleware>, target: ClassId, propertyKey: string)
    modifies md
    ensures md.store == AddRouteMiddlewares(old(md.store), target, propertyKey, mws)
  {
    var stored := md.GetMetadata(RouteMiddlewaresKey, target);
    var byHandler := match stored case Some(MiddlewareMap(m)) => m case _ => map[];
    var current := if propertyKey in byHandler then byHandler[propertyKey] else [];
    byHandler := byHandler[propertyKey := current + mws];
    Metadata.SetAfterTouch(old(md.store), target, RouteMiddlewaresKey, MiddlewareMap(byHandler));
    md.DefineMetadata(RouteMiddlewaresKey, MiddlewareMap(byHandler), target);
  }

  /** `UseController(...mws)` applied to class `target`. */
  method UseController(md: Store, mws: seq<Middleware>, target: ClassId)
    modifies md
    ensures md.store == AddControllerMiddlewares(old(md.store), target, mws)
  {
    var stored := md.GetMetadata(ControllerMiddlewaresKey, target);
    var list := match stored case Some(MiddlewareList(l)) => l case _ => [];
    Metadata.SetAfterTouch(old(md.store), target, ControllerMiddlewaresKey, MiddlewareList(list + mws));
    md.DefineMetadata(ControllerMiddlewaresKey, MiddlewareList(list + mws), target);
  }

  /** The table after registering `defs`, in order, on class `target`. */
  function AddRoutes(tbl: Table, target: ClassId, defs: seq<RouteDefinition>): Table
  {
    if defs == [] then tbl else AddRoute(AddRoutes(tbl, target, defs[..|defs| - 1]), target, defs[|defs| - 1])
  }

  /**
   * Registration only appends: after any sequence of `@RequestMapping`s the
   * class's route list is the old list followed by the new definitions in
   * application order, duplicates included, and no other class changes.
   */
  lemma {:induction false} AddRoutesAppends(tbl: Table, target: ClassId, defs: seq<RouteDefinition>)
    ensures GetRoutes(AddRoutes(tbl, target, defs), target) == GetRoutes(tbl, target) + defs
    ensures OtherClassesUnchanged(tbl, AddRoutes(tbl, target, defs), target)
  {
    if defs != [] {
      var n := |defs| - 1;
      AddRoutesAppends(tbl, target, defs[..n]);
      assert defs == defs[..n] + [defs[n]];
    }
  }

  /**
   * Controller middlewares accumulate in application order: two
   * `@UseController` calls read back as the concatenation of their lists.
   */
  lemma UseControllerTwice(tbl: Table, target: ClassId, first: seq<Middleware>, second: seq<Middleware>)
    ensures GetControllerMiddlewares(AddControllerMiddlewares(AddControllerMiddlewares(tbl, target, first), target, second), target)
            == GetControllerMiddlewares(tbl, target) + first + second
  {
  }

  /** Nothing registered anywhere: every reader returns its empty default. */
  lemma ReadersOfFreshStore(target: ClassId)
    ensures GetRoutes(map[], target) == []
    ensures GetControllerMiddlewares(map[], target) == []
    ensures GetRouteMiddlewares(map[], target) == map[]
  {
  }
}
