/** The text produced by executing main.go's template `tpl` on the package
    name and the derived routes. The template's `{{-` actions trim the
    white space before them, so the registrations follow the closing brace
    of the base-path block directly, each on a line of its own opened by a
    newline and a tab, and the function's closing brace follows the last
    one. */
module Template {
  import opened Text
  import opened GinPath
  import opened Routes

  /** `TemplateData` of main.go. */
  datatype TemplateData = TemplateData(packageName: string, routes: seq<Route>)

  /** The template text up to the closing brace of the base-path block:
      the package clause, then the fixed imports, comment, signature and
      base-path normalisation. */
  function Header(packageName: string): string {
    "package " + packageName + "\n" + Preamble
  }

  const Preamble: string :=
    "\nimport (\n\t\"net/http\"\n\t\"strings\"\n\n\t\"github.com/gin-gonic/gin\"\n)\n\n"
    + "// RegisterRoutes registers routes from OpenAPI spec into gin.Engine\n"
    + "// basePath add base path to the gin router. Your ogenHandler must also have prefix to match gin router.\n"
    + "func RegisterRoutes(r *gin.Engine, ogenHandler http.Handler, basePath string) {\n"
    + "\tif basePath != \"\" {\n\t\tif basePath[0] != '/' {\n\t\t\tbasePath = \"/\" + basePath\n\t\t}\n"
    + "\t\tbasePath = strings.TrimRight(basePath, \"/\")\n\t}"

  /** The template text after the last registration. */
  const Footer: string := "\n}\n"

  /** The statement registering method `m` at gin path `ginPath`; the path
      is put verbatim into a string literal appended to `basePath`. */
  function Registration(m: string, ginPath: string): string {
    "r." + m + "(basePath + \"" + ginPath + "\", gin.WrapH(ogenHandler))"
  }

  /** A statement spans one line exactly when neither the method nor the
      gin path contains a newline: both are pasted in verbatim. */
  lemma RegistrationSingleLine(m: string, ginPath: string)
    ensures '\n' in Registration(m, ginPath) <==> '\n' in m || '\n' in ginPath
  {
    var open, mid, close := "r.", "(basePath + \"", "\", gin.WrapH(ogenHandler))";
    assert '\n' !in open && '\n' !in mid && '\n' !in close;
    assert Registration(m, ginPath) == open + m + mid + ginPath + close;
  }

  /** The statements of one route: one per method, in method order. */
  function RouteRegistrations(route: Route): seq<string> {
    seq(|route.methods|, j requires 0 <= j < |route.methods| => Registration(route.methods[j], route.ginPath))
  }

  /** Number of (route, method) pairs. */
  function PairCount(routes: seq<Route>): nat {
    if routes == [] then 0 else |routes[0].methods| + PairCount(routes[1..])
  }

  /** The nested `range`: the statements of every route, in route order. */
  function Registrations(routes: seq<Route>): (lines: seq<string>)
    ensures |lines| == PairCount(routes)
  {
    if routes == [] then [] else RouteRegistrations(routes[0]) + Registrations(routes[1..])
  }

  /** Each line after a newline. */
  function Lines(lines: seq<string>): string {
    if lines == [] then "" else "\n" + lines[0] + Lines(lines[1..])
  }

  /** Each statement indented by one tab. */
  function Indented(stmts: seq<string>): seq<string> {
    seq(|stmts|, k requires 0 <= k < |stmts| => "\t" + stmts[k])
  }

  /** What the nested `range` writes: one line per statement. */
  function Body(routes: seq<Route>): string {
    Lines(Indented(Registrations(routes)))
  }

  /** The whole generated file. */
  function Render(data: TemplateData): string {
    Header(data.packageName) + Body(data.routes) + Footer
  }

  /** Registrations follow route order: those of a concatenation of route
      lists are those of each list, one after the other. */
  lemma {:induction false} RegistrationsConcat(a: seq<Route>, b: seq<Route>)
    ensures Registrations(a + b) == Registrations(a) + Registrations(b)
  {
    if a != [] {
      assert (a + b)[1..] == a[1..] + b;
      RegistrationsConcat(a[1..], b);
    } else {
      assert a + b == b;
    }
  }

  /** The statement for method `j` of route `i` sits right after the
      statements of all earlier routes and all earlier methods of route
      `i`: route order first, then method order, one statement per pair. */
  lemma {:induction false} RegistrationAt(routes: seq<Route>, i: nat, j: nat)
    requires i < |routes| && j < |routes[i].methods|
    ensures PairCount(routes[..i]) + j < |Registrations(routes)|
    ensures Registrations(routes)[PairCount(routes[..i]) + j] ==
      Registration(routes[i].methods[j], routes[i].ginPath)
  {
    if i == 0 {
      assert routes[..0] == [];
    } else {
      RegistrationAt(routes[1..], i - 1, j);
      assert routes[..i][1..] == routes[1..][..i - 1];
      assert routes[..i][0] == routes[0];
    }
  }

  lemma RegistrationMethodEnd(m: string, p: string)
    requires '(' !in m
    ensures |Registration(m, p)| > 2 + |m| && Registration(m, p)[2 + |m|] == '('
    ensures forall k :: 2 <= k < 2 + |m| ==> Registration(m, p)[k] != '('
  {
    var s := Registration(m, p);
    forall k | 2 <= k < 2 + |m| ensures s[k] != '(' {
      assert s[k] == m[k - 2];
    }
  }

  /** Where the method and the path sit inside a statement. */
  lemma RegistrationParts(m: string, p: string)
    ensures |Registration(m, p)| == 41 + |m| + |p|
    ensures Registration(m, p)[2..2 + |m|] == m
    ensures Registration(m, p)[15 + |m|..15 + |m| + |p|] == p
  {
  }

  lemma MethodWithoutParen(m: string)
    requires m in HttpMethods
    ensures '(' !in m && '\n' !in m
  {
  }

  /** A statement determines its method and its path: the path argument is
      the gin path exactly as given. */
  lemma RegistrationInjective(m1: string, p1: string, m2: string, p2: string)
    requires m1 in HttpMethods && m2 in HttpMethods
    requires Registration(m1, p1) == Registration(m2, p2)
    ensures m1 == m2 && p1 == p2
  {
    var s := Registration(m1, p1);
    assert |m1| == |m2| by {
      MethodWithoutParen(m1);
      MethodWithoutParen(m2);
      RegistrationMethodEnd(m1, p1);
      RegistrationMethodEnd(m2, p2);
    }
    RegistrationParts(m1, p1);
    RegistrationParts(m2, p2);
  }

  /** The lines of a concatenation are the lines of each part. */
  lemma {:induction false} LinesConcat(a: seq<string>, b: seq<string>)
    ensures Lines(a + b) == Lines(a) + Lines(b)
  {
    if a == [] {
      assert a + b == b;
    } else {
      assert (a + b)[1..] == a[1..] + b;
      LinesConcat(a[1..], b);
    }
  }

  lemma IndentedConcat(a: seq<string>, b: seq<string>)
    ensures Indented(a + b) == Indented(a) + Indented(b)
  {
  }

  /** The statement lines of a concatenation of route lists are those of
      each list, one after the other. */
  lemma BodyConcat(a: seq<Route>, b: seq<Route>)
    ensures Body(a + b) == Body(a) + Body(b)
  {
    RegistrationsConcat(a, b);
    IndentedConcat(Registrations(a), Registrations(b));
    LinesConcat(Indented(Registrations(a)), Indented(Registrations(b)));
  }

  /** The text of a list of routes is the text of its first part followed
      by that of the rest: the file is the header, the statement lines of
      every route in route order, then the closing brace. */
  lemma RenderConcat(packageName: string, a: seq<Route>, b: seq<Route>)
    ensures Render(TemplateData(packageName, a + b)) ==
      Header(packageName) + Body(a) + Body(b) + Footer
  {
    BodyConcat(a, b);
    ConcatAssoc4(Header(packageName), Body(a), Body(b), Footer);
  }

  /** Re-association of a four-part concatenation. */
  lemma ConcatAssoc4(h: string, x: string, y: string, f: string)
    ensures h + (x + y) + f == h + x + y + f
  {
  }

  /** Lines are joined by newlines, after a first newline. */
  lemma {:induction false} LinesJoin(lines: seq<string>)
    requires |lines| >= 1
    ensures Lines(lines) == "\n" + Join(lines, '\n')
  {
    if |lines| > 1 {
      LinesJoin(lines[1..]);
    }
  }

  /** Newline-free lines after any head, then one more newline and a tail,
      split on newlines into the head's lines, the lines themselves and the
      tail's lines. */
  lemma SplitLines(head: string, lines: seq<string>, tail: string)
    requires forall i :: 0 <= i < |lines| ==> '\n' !in lines[i]
    ensures Split(head + Lines(lines) + "\n" + tail, '\n') == Split(head, '\n') + lines + Split(tail, '\n')
  {
    var text := head + Lines(lines) + "\n" + tail;
    var pieces := Split(head, '\n') + lines + Split(tail, '\n');
    assert text == Join(pieces, '\n') by {
      JoinedLines(head, lines, tail);
    }
    SplitJoin(pieces, '\n');
  }

  /** The text of `SplitLines` is the join of the head's pieces, the lines
      and the tail's pieces. */
  lemma JoinedLines(head: string, lines: seq<string>, tail: string)
    ensures head + Lines(lines) + "\n" + tail ==
      Join(Split(head, '\n') + lines + Split(tail, '\n'), '\n')
  {
    var h, t := Split(head, '\n'), Split(tail, '\n');
    if lines == [] {
      assert head + Lines(lines) + "\n" + tail == head + ['\n'] + tail;
      assert Join(h + lines + t, '\n') == head + ['\n'] + tail by {
        assert h + lines + t == h + t;
        JoinConcat(h, t, '\n');
        JoinSplit(head, '\n');
        JoinSplit(tail, '\n');
      }
    } else {
      var joined := Join(lines, '\n');
      assert Join(h + lines + t, '\n') == Join(h + lines, '\n') + "\n" + tail by {
        JoinConcat(h + lines, t, '\n');
        JoinSplit(tail, '\n');
      }
      assert Join(h + lines, '\n') == head + "\n" + joined by {
        JoinConcat(h, lines, '\n');
        JoinSplit(head, '\n');
      }
      LinesJoin(lines);
      NewlineJoinAssoc(head, joined, tail);
    }
  }

  /** Re-association of a head, a newline-led join and a newline-led tail. */
  lemma NewlineJoinAssoc(head: string, joined: string, tail: string)
    ensures head + ("\n" + joined) + "\n" + tail == head + "\n" + joined + "\n" + tail
  {
  }

  /** Neither the route's gin path nor any of its methods holds a newline. */
  predicate SingleLine(r: Route) {
    '\n' !in r.ginPath && forall m :: m in r.methods ==> '\n' !in m
  }

  /** A route list whose gin paths and methods have no newline gives
      statements without a newline. */
  lemma {:induction false} RegistrationsSingleLine(routes: seq<Route>)
    requires forall r :: r in routes ==> SingleLine(r)
    ensures forall k :: 0 <= k < |Registrations(routes)| ==> '\n' !in Registrations(routes)[k]
  {
    if routes != [] {
      RegistrationsSingleLine(routes[1..]);
      assert routes[0] in routes;
      var first := RouteRegistrations(routes[0]);
      forall k | 0 <= k < |first| ensures '\n' !in first[k] {
        assert routes[0].methods[k] in routes[0].methods;
        RegistrationSingleLine(routes[0].methods[k], routes[0].ginPath);
      }
    }
  }

  /** After any head, the statement lines split on newlines into the
      head's lines, one line per statement and the closing brace. */
  lemma BodyLines(head: string, routes: seq<Route>)
    requires forall r :: r in routes ==> SingleLine(r)
    ensures Split(head + Body(routes) + Footer, '\n') ==
      Split(head, '\n') + Indented(Registrations(routes)) + ["}", ""]
  {
    var stmts := Indented(Registrations(routes));
    RegistrationsSingleLine(routes);
    forall k | 0 <= k < |stmts| ensures '\n' !in stmts[k] {
      assert stmts[k] == "\t" + Registrations(routes)[k];
    }
    assert head + Lines(stmts) + Footer == head + Lines(stmts) + "\n" + "}\n";
    SplitLines(head, stmts, "}\n");
    assert Split("}\n", '\n') == ["}", ""] by {
      assert "}\n" == "}" + ['\n'] + "";
      SplitConcat("}", "", '\n');
      SplitWithoutSep("}", '\n');
    }
  }

  /** Line by line, the generated file is the header's lines, then one
      line per (route, method) statement indented by a tab, in order, then
      the closing brace and the empty remainder after the final newline.
      This holds when no gin path and no method contains a newline: the
      gin path is pasted unescaped into a Go string literal. */
  lemma RenderLines(data: TemplateData)
    requires forall r :: r in data.routes ==> SingleLine(r)
    ensures Split(Render(data), '\n') ==
      Split(Header(data.packageName), '\n') + Indented(Registrations(data.routes)) + ["}", ""]
  {
    BodyLines(Header(data.packageName), data.routes);
  }
}
