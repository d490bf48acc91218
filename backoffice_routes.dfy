/**
 * The back-office route table (resources/js/routers/backoffice.js): route
 * objects are declared, the resource routes are prefixed in place, and then
 * every route is renamed into the back-office namespace and marked as
 * needing an authenticated user. Components are left out.
 */
module BackofficeRoutes {

  /** A route object; `auth` is false until the second pass sets it. */
  class Route {
    var name: string
    var path: string
    var auth: bool

    constructor (name: string, path: string)
      ensures this.name == name && this.path == path && !auth
    {
      this.name := name;
      this.path := path;
      auth := false;
    }
  }

  /** The pages declared at the top level (backoffice.js:49-65). */
  const Pages: seq<(string, string)> := [
    ("home", "/"),
    ("settings.profile", "/settings/profile"),
    ("settings.account", "/settings/account")
  ]

  /** The resource routes declared for users and tasks (backoffice.js:6-40). */
  const Resources: seq<(string, string)> := [
    ("users.index", "/users"),
    ("users.create", "/users/create"),
    ("users.edit", "/users/:id/edit"),
    ("tasks.index", "/tasks"),
    ("tasks.create", "/tasks/create"),
    ("tasks.edit", "/tasks/:id/edit")
  ]

  /** No route object appears twice. */
  predicate Distinct(routes: seq<Route>)
  {
    forall i, j :: 0 <= i < j < |routes| ==> routes[i] != routes[j]
  }

  /** Route objects for a list of declarations, in order. */
  method Declare(decls: seq<(string, string)>) returns (routes: seq<Route>)
    ensures |routes| == |decls| && Distinct(routes)
    ensures forall i :: 0 <= i < |routes| ==> fresh(routes[i])
    ensures forall i :: 0 <= i < |routes| ==>
      routes[i].name == decls[i].0 && routes[i].path == decls[i].1 && !routes[i].auth
  {
    routes := [];
    var i := 0;
    while i < |decls|
      invariant 0 <= i <= |decls|
      invariant |routes| == i && Distinct(routes)
      invariant forall k :: 0 <= k < i ==> fresh(routes[k])
      invariant forall k :: 0 <= k < i ==>
        routes[k].name == decls[k].0 && routes[k].path == decls[k].1 && !routes[k].auth
    {
      var route := new Route(decls[i].0, decls[i].1);
      routes := routes + [route];
      i := i + 1;
    }
  }

  /**
   * The first `map` pass (backoffice.js:41-46): every resource route's name
   * gets the `resources.` prefix and its path the `/resources` prefix.
   */
  method PrefixResources(routes: seq<Route>)
    requires Distinct(routes)
    modifies set r | r in routes
    ensures forall i :: 0 <= i < |routes| ==>
      && routes[i].name == "resources." + old(routes[i].name)
      && routes[i].path == "/resources" + old(routes[i].path)
      && routes[i].auth == old(routes[i].auth)
  {
    var i := 0;
    while i < |routes|
      invariant 0 <= i <= |routes|
      invariant forall k :: 0 <= k < i ==>
        && routes[k].name == "resources." + old(routes[k].name)
        && routes[k].path == "/resources" + old(routes[k].path)
        && routes[k].auth == old(routes[k].auth)
      invariant forall k :: i <= k < |routes| ==>
        && routes[k].name == old(routes[k].name)
        && routes[k].path == old(routes[k].path)
        && routes[k].auth == old(routes[k].auth)
    {
      routes[i].name := "resources." + routes[i].name;
      routes[i].path := "/resources" + routes[i].path;
      i := i + 1;
    }
  }

  /**
   * The second `map` pass (backoffice.js:68-73): every route's name gets the
   * `backoffice.` prefix, its path is kept, and it requires authentication.
   */
  method MarkBackoffice(routes: seq<Route>)
    requires Distinct(routes)
    modifies set r | r in routes
    ensures forall i :: 0 <= i < |routes| ==>
      && routes[i].name == "backoffice." + old(routes[i].name)
      && routes[i].path == old(routes[i].path)
      && routes[i].auth
  {
    var i := 0;
    while i < |routes|
      invariant 0 <= i <= |routes|
      invariant forall k :: 0 <= k < i ==>
        && routes[k].name == "backoffice." + old(routes[k].name)
        && routes[k].path == old(routes[k].path)
        && routes[k].auth
      invariant forall k :: i <= k < |routes| ==>
        && routes[k].name == old(routes[k].name)
        && routes[k].path == old(routes[k].path)
    {
      routes[i].name := "backoffice." + routes[i].name;
      routes[i].auth := true;
      i := i + 1;
    }
  }

  /**
   * The exported table (backoffice.js:6-73): the three pages, then the six
   * resource routes in declared order; pages keep their path, resources are
   * under `/resources` and `resources.`, all are `backoffice.` and need
   * authentication.
   */
  method BuildRoutes() returns (routes: seq<Route>)
    ensures |routes| == |Pages| + |Resources| == 9
    ensures Distinct(routes)
    ensures forall i :: 0 <= i < |Pages| ==>
      routes[i].name == "backoffice." + Pages[i].0 && routes[i].path == Pages[i].1
    ensures forall i :: 0 <= i < |Resources| ==>
      && routes[|Pages| + i].name == "backoffice." + ("resources." + Resources[i].0)
      && routes[|Pages| + i].path == "/resources" + Resources[i].1
    ensures forall i :: 0 <= i < |routes| ==> routes[i].auth
    ensures forall i :: 0 <= i < |routes| ==> (routes[i].name, routes[i].path) == RouteTable()[i]
  {
    var resources := Declare(Resources);
    PrefixResources(resources);
    var pages := Declare(Pages);
    routes := pages + resources;
    assert forall i, j :: 0 <= i < |pages| && 0 <= j < |resources| ==> pages[i] != resources[j];
    MarkBackoffice(routes);
  }

  /** The name and path each route ends with, in order. */
  function RouteTable(): (table: seq<(string, string)>)
    ensures |table| == |Pages| + |Resources|
    ensures forall i :: 0 <= i < |Pages| ==> table[i] == ("backoffice." + Pages[i].0, Pages[i].1)
    ensures forall i :: 0 <= i < |Resources| ==>
      table[|Pages| + i] == ("backoffice." + ("resources." + Resources[i].0), "/resources" + Resources[i].1)
  {
    seq(|Pages|, i requires 0 <= i < |Pages| => ("backoffice." + Pages[i].0, Pages[i].1))
    + seq(|Resources|, i requires 0 <= i < |Resources| =>
        ("backoffice." + ("resources." + Resources[i].0), "/resources" + Resources[i].1))
  }

  /** Prefixing two different names with the same text keeps them different. */
  lemma {:induction false} PrefixKeepsDistinct(prefix: string, a: string, b: string)
    requires a != b
    ensures prefix + a != prefix + b
  {
    assert (prefix + a)[|prefix|..] == a;
    assert (prefix + b)[|prefix|..] == b;
  }

  /** The table's names are distinct, so a route is found by name unambiguously. */
  lemma RouteNamesAreDistinct()
    ensures forall i, j :: 0 <= i < j < |RouteTable()| ==> RouteTable()[i].0 != RouteTable()[j].0
  {
    var t := RouteTable();
    forall i, j | 0 <= i < j < |t|
      ensures t[i].0 != t[j].0
    {
      if j < |Pages| {
        assert Pages[i].0 != Pages[j].0;
        PrefixKeepsDistinct("backoffice.", Pages[i].0, Pages[j].0);
      } else if i < |Pages| {
        var k := j - |Pages|;
        assert t[j] == t[|Pages| + k];
        var resource := "resources." + Resources[k].0;
        assert Pages[i].0[0] != 'r' && resource[0] == 'r';
        PrefixKeepsDistinct("backoffice.", Pages[i].0, resource);
      } else {
        var m, k := i - |Pages|, j - |Pages|;
        assert t[i] == t[|Pages| + m] && t[j] == t[|Pages| + k];
        assert Resources[m].0 != Resources[k].0;
        PrefixKeepsDistinct("resources.", Resources[m].0, Resources[k].0);
        PrefixKeepsDistinct("backoffice.", "resources." + Resources[m].0, "resources." + Resources[k].0);
      }
    }
  }
}
