/** The generator from the decoded `paths` map to the generated file:
    derive the routes, then execute the template on them (main.go's `main`
    without the flag parsing, the file I/O and the decoding). */
module Generator {
  import opened Text
  import opened GinPath
  import opened Routes
  import opened Template

  /** Route derivation followed by template execution. */
  method Generate(packageName: string, items: seq<PathItem>) returns (text: string)
    ensures text == Render(TemplateData(packageName, RoutesOf(items)))
  {
    var routes := DeriveRoutes(items);
    text := Render(TemplateData(packageName, routes));
  }

  /** The statements generated for the path items of a document are those
      of each item in turn, and an item contributes one statement per
      recognised key, at its translated path, in key order (none at all
      when it has no recognised key). */
  lemma ItemRegistrations(items: seq<PathItem>, item: PathItem)
    ensures Registrations(RoutesOf(items + [item])) ==
      Registrations(RoutesOf(items)) + RouteRegistrations(RouteOf(item))
  {
    var extra := if RouteMethods(item.keys) == [] then [] else [RouteOf(item)];
    assert (items + [item])[..|items|] == items;
    assert RoutesOf(items + [item]) == RoutesOf(items) + extra;
    RegistrationsConcat(RoutesOf(items), extra);
    if extra != [] {
      assert extra[1..] == [];
    }
  }

  lemma PetStoreMethods()
    ensures RouteMethods(["get", "post"]) == ["GET", "POST"]
    ensures RouteMethods(["get"]) == ["GET"]
  {
    MethodCaseExamples();
    assert ToLower("post") == "post" && ToUpper("post") == "POST";
    assert ["get", "post"][..1] == ["get"];
    assert ["get"][..0] == [];
  }

  /** A Petstore-style document of two path items, such as `/pets/{petId}`
      with keys get and post and `/health` with key get, stated for any two
      paths: GET and POST at the first path's gin form, then GET at the
      second's. */
  lemma PetStoreExample(pets: string, health: string)
    ensures Registrations(RoutesOf([PathItem(pets, ["get", "post"]), PathItem(health, ["get"])])) ==
      [ Registration("GET", GinPathOf(pets)),
        Registration("POST", GinPathOf(pets)),
        Registration("GET", GinPathOf(health)) ]
  {
    PetStoreMethods();
    PairRegistrations(PathItem(pets, ["get", "post"]), PathItem(health, ["get"]));
  }

  lemma PairRegistrations(a: PathItem, b: PathItem)
    ensures Registrations(RoutesOf([a, b])) ==
      RouteRegistrations(RouteOf(a)) + RouteRegistrations(RouteOf(b))
  {
    assert [a, b] == [] + [a] + [b];
    ItemRegistrations([] + [a], b);
    ItemRegistrations([], a);
  }

  /** The route of a path item whose path holds no newline holds none
      either, in its gin path or in its methods. */
  lemma RouteOfSingleLine(item: PathItem)
    requires '\n' !in item.path
    ensures SingleLine(RouteOf(item))
  {
    GinPathRunes(item.path, '\n');
    forall m | m in RouteOf(item).methods
      ensures '\n' !in m
    {
      MethodWithoutParen(m);
    }
  }

  /** Every route derived from a document whose paths hold no newline is
      free of newlines. */
  lemma {:induction false} RoutesSingleLine(items: seq<PathItem>)
    requires forall i :: 0 <= i < |items| ==> '\n' !in items[i].path
    ensures forall r :: r in RoutesOf(items) ==> SingleLine(r)
  {
    if items != [] {
      var n := |items| - 1;
      RoutesSingleLine(items[..n]);
      RouteOfSingleLine(items[n]);
    }
  }

  /** The generated file, line by line, for a document whose paths hold no
      newline: the header's lines, then one line per statement (a tab and
      the statement), then the closing brace and the empty text after the
      final newline. */
  lemma DocumentLines(packageName: string, items: seq<PathItem>)
    requires forall i :: 0 <= i < |items| ==> '\n' !in items[i].path
    ensures Split(Render(TemplateData(packageName, RoutesOf(items))), '\n') ==
      Split(Header(packageName), '\n') + Indented(Registrations(RoutesOf(items))) + ["}", ""]
  {
    RoutesSingleLine(items);
    RenderLines(TemplateData(packageName, RoutesOf(items)));
  }
}
