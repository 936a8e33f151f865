/**
 * The route table of the application (src/App.js): `getRoutes` maps a tree
 * of route records to Route elements, nested arrays and nulls, which the
 * router reads flattened; two fixed routes follow the generated ones.
 */
module Routes {
  import opened Wrappers

  /** What a route renders: a page component by name, or a redirect. */
  datatype Element = Page(name: string) | Redirect(to: string)

  /**
   * One route record: its `key`, its `route` path, its `component` and, when
   * `hasCollapse` holds, the nested records of its `collapse` array (when the
   * record has no `collapse`, `hasCollapse` is false and that field is unused).
   */
  datatype RouteRecord = RouteRecord(key: Option<string>, route: Option<string>,
                                     component: Option<Element>,
                                     hasCollapse: bool, collapse: seq<RouteRecord>)

  /** A `<Route path element key />` element. */
  datatype Route = Route(path: string, element: Option<Element>, key: Option<string>)

  /** What the mapping returns for one record: a Route, null, or the array made for a collapse. */
  datatype RouteNode = Leaf(route: Route) | Null | Nested(children: seq<RouteNode>)

  /** `route.route` is truthy: present and non-empty. */
  predicate HasPath(r: RouteRecord) {
    r.route.Some? && r.route.value != ""
  }

  /** The Route element made for a record with a path. */
  function RouteOf(r: RouteRecord): Route
    requires HasPath(r)
  {
    Route(r.route.value, r.component, r.key)
  }

  /**
   * getRoutes: one result per record, in order. A record with `collapse` (an
   * array, truthy even when empty) becomes the array for its children, even
   * when it also has a path; otherwise a record with a path becomes its Route,
   * and any other record null.
   */
  function GetRoutes(rs: seq<RouteRecord>): (ns: seq<RouteNode>)
    ensures |ns| == |rs|
    ensures forall i :: 0 <= i < |rs| ==> ns[i] == GetRoute(rs[i])
    decreases rs
  {
    seq(|rs|, i requires 0 <= i < |rs| => GetRoute(rs[i]))
  }

  /** The callback of getRoutes' map, for one record. */
  function GetRoute(r: RouteRecord): (n: RouteNode)
    ensures r.hasCollapse ==> n.Nested? && |n.children| == |r.collapse|
    ensures !r.hasCollapse && HasPath(r) ==> n == Leaf(RouteOf(r))
    ensures !r.hasCollapse && !HasPath(r) ==> n == Null
    decreases r
  {
    if r.hasCollapse then Nested(GetRoutes(r.collapse))
    else if HasPath(r) then Leaf(RouteOf(r))
    else Null
  }

  /** The routes the router sees: nested arrays spliced in place, nulls dropped. */
  function Flatten(ns: seq<RouteNode>): seq<Route>
    decreases ns
  {
    if ns == [] then []
    else
      var first := match ns[0]
        case Leaf(r) => [r]
        case Null => []
        case Nested(cs) => Flatten(cs);
      first + Flatten(ns[1..])
  }

  /**
   * The reference reading of a route tree: in document order, every record
   * without `collapse` that has a path, as its Route.
   */
  function Leaves(rs: seq<RouteRecord>): seq<Route>
    decreases rs
  {
    if rs == [] then [] else RecordLeaves(rs[0]) + Leaves(rs[1..])
  }

  function RecordLeaves(r: RouteRecord): seq<Route>
    decreases r
  {
    if r.hasCollapse then Leaves(r.collapse)
    else if HasPath(r) then [RouteOf(r)]
    else []
  }

  /** Flattening what getRoutes builds gives exactly the reference reading. */
  lemma {:induction false} FlattenGetRoutes(rs: seq<RouteRecord>)
    ensures Flatten(GetRoutes(rs)) == Leaves(rs)
    decreases rs
  {
    if rs != [] {
      var ns := GetRoutes(rs);
      assert ns[1..] == GetRoutes(rs[1..]);
      FlattenGetRoutes(rs[1..]);
      FlattenGetRoute(rs[0]);
    }
  }

  lemma {:induction false} FlattenGetRoute(r: RouteRecord)
    ensures Flatten([GetRoute(r)]) == RecordLeaves(r)
    decreases r
  {
    if r.hasCollapse {
      FlattenGetRoutes(r.collapse);
      assert Flatten([GetRoute(r)]) == Flatten(GetRoutes(r.collapse)) + Flatten([]);
    }
  }

  /** Every record of the tree, the collapsed ones and everything under them. */
  function Records(rs: seq<RouteRecord>): set<RouteRecord>
    decreases rs
  {
    if rs == [] then {} else RecordsUnder(rs[0]) + Records(rs[1..])
  }

  /** A record and every record nested under it. */
  function RecordsUnder(r: RouteRecord): set<RouteRecord>
    decreases r
  {
    {r} + (if r.hasCollapse then Records(r.collapse) else {})
  }

  /**
   * Every registered route comes from a record of the tree that has a path and
   * no `collapse`: a collapsed record is never registered itself.
   */
  lemma {:induction false} LeavesComeFromPathRecords(rs: seq<RouteRecord>)
    ensures forall x :: x in Leaves(rs) ==>
      exists r :: r in Records(rs) && !r.hasCollapse && HasPath(r) && x == RouteOf(r)
    decreases rs
  {
    if rs != [] {
      LeavesComeFromPathRecords(rs[1..]);
      RecordLeavesComeFromPathRecords(rs[0]);
    }
  }

  lemma {:induction false} RecordLeavesComeFromPathRecords(r: RouteRecord)
    ensures forall x :: x in RecordLeaves(r) ==>
      exists q :: q in RecordsUnder(r) && !q.hasCollapse && HasPath(q) && x == RouteOf(q)
    decreases r
  {
    if r.hasCollapse {
      LeavesComeFromPathRecords(r.collapse);
    }
  }

  /** Conversely, every record of the tree that has a path and no `collapse` is registered. */
  lemma {:induction false} PathRecordsAreRegistered(rs: seq<RouteRecord>)
    ensures forall r :: r in Records(rs) && !r.hasCollapse && HasPath(r) ==> RouteOf(r) in Leaves(rs)
    decreases rs
  {
    if rs != [] {
      PathRecordsAreRegistered(rs[1..]);
      PathRecordUnderIsRegistered(rs[0]);
    }
  }

  lemma {:induction false} PathRecordUnderIsRegistered(r: RouteRecord)
    ensures forall q :: q in RecordsUnder(r) && !q.hasCollapse && HasPath(q) ==> RouteOf(q) in RecordLeaves(r)
    decreases r
  {
    if r.hasCollapse {
      PathRecordsAreRegistered(r.collapse);
    }
  }

  const Home: Route := Route("/", Some(Page("Presentation")), None)
  const CatchAll: Route := Route("*", Some(Redirect("/")), None)

  /**
   * The routes rendered inside <Routes>: the generated ones, in tree order,
   * then "/" for the presentation page, then every other path redirected to "/".
   */
  function RouteTable(routes: seq<RouteRecord>): (table: seq<Route>)
    ensures |table| >= 2
    ensures table[..|table| - 2] == Leaves(routes)
    ensures table[|table| - 2] == Home && table[|table| - 1] == CatchAll
  {
    FlattenGetRoutes(routes);
    Flatten(GetRoutes(routes)) + [Home, CatchAll]
  }
}
