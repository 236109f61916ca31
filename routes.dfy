/** Route derivation: the loop in main.go's `main` that turns the `paths`
    map of an OpenAPI document into the list of `Route` values handed to
    the template. */
module Routes {
  import opened Text
  import opened GinPath

  /** One entry of the document's `paths` map: the path template and the
      keys of its path item (operations and other fields such as
      `parameters`), in the order Go's map iteration happened to give. */
  datatype PathItem = PathItem(path: string, keys: seq<string>)

  /** `Route` of main.go: the path as written, its gin form, and the
      upper-case methods registered for it. */
  datatype Route = Route(path: string, ginPath: string, methods: seq<string>)

  /** The keys of `validMethods`: lower-case names of the HTTP methods. */
  const ValidMethods: set<string> :=
    {"get", "post", "put", "delete", "patch", "head", "options", "trace"}

  /** The method names that can appear in a route. */
  const HttpMethods: set<string> :=
    {"GET", "POST", "PUT", "DELETE", "PATCH", "HEAD", "OPTIONS", "TRACE"}

  /** A path-item key names an operation when its lower-case form is one of
      the eight methods, whatever its case. */
  predicate Recognised(key: string) {
    ToLower(key) in ValidMethods
  }

  lemma UpperOfValidMethod(l: string)
    requires l in ValidMethods
    ensures ToUpper(l) in HttpMethods && ToLower(ToUpper(l)) == l
  {
    if l == "get" { UpperLower("get", "GET"); }
    else if l == "post" { UpperLower("post", "POST"); }
    else if l == "put" { UpperLower("put", "PUT"); }
    else if l == "delete" { UpperLower("delete", "DELETE"); }
    else if l == "patch" { UpperLower("patch", "PATCH"); }
    else if l == "head" { UpperLower("head", "HEAD"); }
    else if l == "options" { UpperLower("options", "OPTIONS"); }
    else { UpperLower("trace", "TRACE"); }
  }

  lemma UpperLower(l: string, u: string)
    requires |l| == |u|
    requires forall i :: 0 <= i < |l| ==> 'a' <= l[i] <= 'z' && u[i] as int == l[i] as int - 32
    ensures ToUpper(l) == u && ToLower(u) == l
  {
  }

  /** The name a recognised key is registered under: one of the eight
      upper-case methods, equal to the key up to case. */
  function MethodName(key: string): (m: string)
    requires Recognised(key)
    ensures m in HttpMethods
    ensures ToLower(m) == ToLower(key)
  {
    UpperOfValidMethod(ToLower(key));
    ToUpper(ToLower(key))
  }

  /** The `methods` slice built for one path item: the names of its
      recognised keys, in key order. */
  function RouteMethods(keys: seq<string>): (ms: seq<string>)
    ensures |ms| <= |keys|
    ensures forall m :: m in ms ==> m in HttpMethods
  {
    if keys == [] then []
    else
      var last := keys[|keys| - 1];
      RouteMethods(keys[..|keys| - 1]) + (if Recognised(last) then [MethodName(last)] else [])
  }

  /** The route a path item gives when it has at least one operation. */
  function RouteOf(item: PathItem): Route {
    Route(item.path, GinPathOf(item.path), RouteMethods(item.keys))
  }

  /** What every derived route satisfies: at least one method, only the
      eight upper-case methods, and the gin form of its own path. */
  predicate WellFormed(r: Route) {
    && r.methods != []
    && (forall m :: m in r.methods ==> m in HttpMethods)
    && r.ginPath == GinPathOf(r.path)
  }

  /** The `routes` slice built from the path items, in iteration order;
      items without a recognised key are skipped. */
  function RoutesOf(items: seq<PathItem>): (routes: seq<Route>)
    ensures |routes| <= |items|
    ensures forall j :: 0 <= j < |routes| ==> WellFormed(routes[j])
  {
    if items == [] then []
    else
      var last := items[|items| - 1];
      var ms := RouteMethods(last.keys);
      RoutesOf(items[..|items| - 1]) + (if ms == [] then [] else [RouteOf(last)])
  }

  /** Indices of the keys that name an operation. */
  function RecognisedPositions(keys: seq<string>): set<nat> {
    set i: nat | i < |keys| && Recognised(keys[i])
  }

  /** Methods are collected in key order: the methods of a concatenation of
      keys are the methods of the first part followed by those of the
      second. */
  lemma {:induction false} RouteMethodsConcat(a: seq<string>, b: seq<string>)
    ensures RouteMethods(a + b) == RouteMethods(a) + RouteMethods(b)
  {
    if b == [] {
      assert a + b == a;
    } else {
      var last := b[|b| - 1];
      assert (a + b)[..|a + b| - 1] == a + b[..|b| - 1];
      RouteMethodsConcat(a, b[..|b| - 1]);
    }
  }

  /** A route gets exactly one method per recognised key, duplicates
      (`get` beside `GET`) included. */
  lemma {:induction false} RouteMethodsCount(keys: seq<string>)
    ensures |RouteMethods(keys)| == |RecognisedPositions(keys)|
  {
    if keys == [] {
      assert RecognisedPositions(keys) == {};
    } else {
      var n := |keys| - 1;
      var front := keys[..n];
      RouteMethodsCount(front);
      assert n !in RecognisedPositions(front);
      if Recognised(keys[n]) {
        assert RecognisedPositions(keys) == RecognisedPositions(front) + {n};
      } else {
        assert RecognisedPositions(keys) == RecognisedPositions(front);
      }
    }
  }

  /** A method appears in the route exactly when some key names it, up to
      case. */
  lemma {:induction false} RouteMethodsMembers(keys: seq<string>)
    ensures forall m :: m in RouteMethods(keys) <==>
      exists i :: 0 <= i < |keys| && Recognised(keys[i]) && MethodName(keys[i]) == m
  {
    if keys != [] {
      var n := |keys| - 1;
      var front := keys[..n];
      RouteMethodsMembers(front);
      forall m ensures m in RouteMethods(keys) <==>
        exists i :: 0 <= i < |keys| && Recognised(keys[i]) && MethodName(keys[i]) == m
      {
        if m in RouteMethods(front) {
          var i :| 0 <= i < |front| && Recognised(front[i]) && MethodName(front[i]) == m;
          assert keys[i] == front[i];
        }
        if exists i :: 0 <= i < |keys| && Recognised(keys[i]) && MethodName(keys[i]) == m {
          var i :| 0 <= i < |keys| && Recognised(keys[i]) && MethodName(keys[i]) == m;
          if i < n {
            assert front[i] == keys[i];
          }
        }
      }
    }
  }

  /** An item gets no methods exactly when none of its keys names an
      operation (a path item holding only `parameters`, say). */
  lemma RouteMethodsEmpty(keys: seq<string>)
    ensures RouteMethods(keys) == [] <==> forall i :: 0 <= i < |keys| ==> !Recognised(keys[i])
  {
    RouteMethodsCount(keys);
    if exists i :: 0 <= i < |keys| && Recognised(keys[i]) {
      var i :| 0 <= i < |keys| && Recognised(keys[i]);
      assert i in RecognisedPositions(keys);
    } else {
      assert RecognisedPositions(keys) == {};
    }
  }

  /** Key matching ignores case and output is upper case; other path-item
      fields are not operations. */
  lemma MethodCaseExamples()
    ensures Recognised("Get") && MethodName("Get") == "GET"
    ensures Recognised("get") && MethodName("get") == "GET"
    ensures Recognised("GET") && MethodName("GET") == "GET"
    ensures !Recognised("parameters") && !Recognised("summary")
    ensures RouteMethods(["get", "parameters", "Post"]) == ["GET", "POST"]
  {
    assert ToLower("Get") == "get";
    assert ToLower("GET") == "get";
    assert ToLower("get") == "get";
    assert ToUpper("get") == "GET";
    assert ToLower("Post") == "post";
    assert ToUpper("post") == "POST";
    assert ToLower("parameters") == "parameters";
    assert ToLower("summary") == "summary";
    var keys := ["get", "parameters", "Post"];
    assert keys[..2] == ["get", "parameters"];
    assert keys[..2][..1] == ["get"];
    assert ["get"][..0] == [];
  }

  /** Routes come out in the order of the path items: the routes of a
      concatenation are the routes of each part, one after the other. */
  lemma {:induction false} RoutesConcat(a: seq<PathItem>, b: seq<PathItem>)
    ensures RoutesOf(a + b) == RoutesOf(a) + RoutesOf(b)
  {
    if b == [] {
      assert a + b == a;
    } else {
      assert (a + b)[..|a + b| - 1] == a + b[..|b| - 1];
      RoutesConcat(a, b[..|b| - 1]);
    }
  }

  /** Route `r` is the one derived from the `i`-th path item. */
  predicate DerivedFrom(items: seq<PathItem>, i: int, r: Route) {
    0 <= i < |items| && RouteMethods(items[i].keys) != [] && r == RouteOf(items[i])
  }

  /** Every derived route is the route of a path item that has at least
      one recognised key. */
  lemma {:induction false} RoutesSound(items: seq<PathItem>)
    ensures forall r :: r in RoutesOf(items) ==> exists i :: DerivedFrom(items, i, r)
  {
    if items != [] {
      var n := |items| - 1;
      var front := items[..n];
      RoutesSound(front);
      forall r | r in RoutesOf(items) ensures exists i :: DerivedFrom(items, i, r) {
        if r in RoutesOf(front) {
          var i :| DerivedFrom(front, i, r);
          assert DerivedFrom(items, i, r);
        } else {
          assert RouteMethods(items[n].keys) != [] && r == RouteOf(items[n]);
          assert DerivedFrom(items, n, r);
        }
      }
    }
  }

  /** Every path item with at least one recognised key gives its route:
      the item's own path, its gin form and its methods. */
  lemma {:induction false} RoutesComplete(items: seq<PathItem>)
    ensures forall i :: 0 <= i < |items| && RouteMethods(items[i].keys) != [] ==>
      RouteOf(items[i]) in RoutesOf(items)
  {
    if items != [] {
      var n := |items| - 1;
      var front := items[..n];
      RoutesComplete(front);
      forall i | 0 <= i < |items| && RouteMethods(items[i].keys) != []
        ensures RouteOf(items[i]) in RoutesOf(items)
      {
        if i < n {
          assert items[i] == front[i];
        }
      }
    }
  }

  /** A path item none of whose keys is an operation adds no route. */
  lemma UnrecognisedItemDropped(items: seq<PathItem>, item: PathItem)
    requires forall i :: 0 <= i < |item.keys| ==> !Recognised(item.keys[i])
    ensures RoutesOf(items + [item]) == RoutesOf(items)
  {
    RouteMethodsEmpty(item.keys);
    assert (items + [item])[..|items|] == items;
  }

  /** The inner loop of the derivation: the upper-cased names of the keys
      whose lower-case form is a valid method, appended one by one. */
  method CollectMethods(keys: seq<string>) returns (methods: seq<string>)
    ensures methods == RouteMethods(keys)
  {
    methods := [];
    for j := 0 to |keys|
      invariant methods == RouteMethods(keys[..j])
    {
      var methodLower := ToLower(keys[j]);
      assert keys[..j + 1][..j] == keys[..j];
      assert RouteMethods(keys[..j + 1]) ==
        RouteMethods(keys[..j]) + (if Recognised(keys[j]) then [MethodName(keys[j])] else []);
      if methodLower in ValidMethods {
        methods := methods + [ToUpper(methodLower)];
      }
    }
    assert keys[..|keys|] == keys;
  }

  /** The outer loop of the derivation: for every path item, collect its
      methods; skip the item if there are none, otherwise append its route
      with the translated path. */
  method DeriveRoutes(items: seq<PathItem>) returns (routes: seq<Route>)
    ensures routes == RoutesOf(items)
  {
    routes := [];
    for n := 0 to |items|
      invariant routes == RoutesOf(items[..n])
    {
      var item := items[n];
      var methods := CollectMethods(item.keys);
      assert items[..n + 1][..n] == items[..n];
      if |methods| == 0 {
        continue;
      }
      var ginPath := ConvertPathToGin(item.path);
      routes := routes + [Route(item.path, ginPath, methods)];
    }
    assert items[..|items|] == items;
  }
}
