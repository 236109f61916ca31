/** Translation of an OpenAPI path template such as `/users/{id}` into the
    route pattern gin expects, `/users/:id` (`convertPathToGin` in main.go). */
module GinPath {
  import opened Text

  /** A segment written as a path parameter: its first rune is `{` and its
      last rune is `}`. Empty segments never are. */
  predicate IsParam(seg: string) {
    |seg| > 0 && seg[0] == '{' && seg[|seg| - 1] == '}'
  }

  /** The gin form of one segment: a parameter `{name}` becomes `:name`,
      every other segment is kept. */
  function TranslateSegment(seg: string): (r: string)
    ensures '/' !in seg ==> '/' !in r
    ensures r != seg ==> IsParam(seg) && r != [] && r[0] == ':'
    ensures !IsParam(r) || r == seg
  {
    if IsParam(seg) then ":" + seg[1..|seg| - 1] else seg
  }

  /** Every segment translated, one result per segment. */
  function TranslateAll(parts: seq<string>): (r: seq<string>)
    ensures |r| == |parts|
  {
    seq(|parts|, i requires 0 <= i < |parts| => TranslateSegment(parts[i]))
  }

  /** Translating translated segments again changes none of them. */
  lemma TranslateAllStable(parts: seq<string>)
    ensures TranslateAll(TranslateAll(parts)) == TranslateAll(parts)
  {
    var once := TranslateAll(parts);
    forall i | 0 <= i < |once|
      ensures TranslateSegment(once[i]) == once[i]
    {
      assert once[i] == TranslateSegment(parts[i]);
    }
  }

  /** What `convertPathToGin` returns: the path split on `/`, every segment
      translated, joined again with `/`. */
  function GinPathOf(path: string): string
  {
    Join(TranslateAll(Split(path, '/')), '/')
  }

  /** `convertPathToGin`: overwrites each parameter segment of the split
      path in place, then joins the segments. */
  method ConvertPathToGin(path: string) returns (r: string)
    ensures r == GinPathOf(path)
  {
    ghost var original := Split(path, '/');
    var parts := Split(path, '/');
    for i := 0 to |parts|
      invariant |parts| == |original|
      invariant forall k :: 0 <= k < i ==> parts[k] == TranslateSegment(original[k])
      invariant forall k :: i <= k < |parts| ==> parts[k] == original[k]
    {
      var part := parts[i];
      if |part| == 0 {
        continue;
      }
      if part[0] == '{' && part[|part| - 1] == '}' {
        parts := parts[i := ":" + part[1..|part| - 1]];
      }
    }
    assert parts == TranslateAll(original);
    r := Join(parts, '/');
  }

  /** The translated path has exactly the segments of the input, each one
      translated on its own: parameter segments become `:` and their inner
      text, all others (empty ones, lone braces, literals) are unchanged. */
  lemma GinPathSegments(path: string)
    ensures Split(GinPathOf(path), '/') == TranslateAll(Split(path, '/'))
    ensures forall i :: 0 <= i < |Split(path, '/')| ==>
      var seg := Split(path, '/')[i];
      Split(GinPathOf(path), '/')[i] == if IsParam(seg) then ":" + seg[1..|seg| - 1] else seg
  {
    var parts := TranslateAll(Split(path, '/'));
    forall i | 0 <= i < |parts| ensures '/' !in parts[i] {
    }
    SplitJoin(parts, '/');
  }

  /** Translation keeps the number of `/` characters, so routes keep their
      depth. */
  lemma GinPathKeepsSlashes(path: string)
    ensures Count(GinPathOf(path), '/') == Count(path, '/')
  {
    GinPathSegments(path);
    SplitLength(path, '/');
    SplitLength(GinPathOf(path), '/');
  }

  /** Translating an already translated path changes nothing: rewritten
      segments start with `:` and are no longer parameters. */
  lemma GinPathIdempotent(path: string)
    ensures GinPathOf(GinPathOf(path)) == GinPathOf(path)
  {
    GinPathSegments(path);
    TranslateAllStable(Split(path, '/'));
  }

  /** A path made of one segment translates as that segment. */
  lemma GinPathOfSegment(seg: string)
    requires '/' !in seg
    ensures GinPathOf(seg) == TranslateSegment(seg)
  {
    SplitWithoutSep(seg, '/');
  }

  /** Translation works segment by segment: translating two paths joined by
      a `/` joins their translations by a `/`. With GinPathOfSegment this
      gives, for instance, `/pets/{petId}` -> `/pets/:petId`. */
  lemma GinPathConcat(a: string, b: string)
    ensures GinPathOf(a + "/" + b) == GinPathOf(a) + "/" + GinPathOf(b)
  {
    var x := Split(a, '/');
    var y := Split(b, '/');
    SplitConcat(a, b, '/');
    assert TranslateAll(x + y) == TranslateAll(x) + TranslateAll(y);
    JoinConcat(TranslateAll(x), TranslateAll(y), '/');
  }

  /** A segment `{name}` becomes `:name`, whatever the name, including
      the empty one: `{}` becomes `:`. */
  lemma ParamSegment(name: string)
    ensures TranslateSegment("{" + name + "}") == ":" + name
  {
    var seg := "{" + name + "}";
    assert seg[1..|seg| - 1] == name;
  }

  /** Single segments: empty segments, lone braces and text merely
      containing braces are kept. */
  lemma SegmentExamples()
    ensures TranslateSegment("") == ""
    ensures TranslateSegment("{") == "{" && TranslateSegment("}") == "}"
    ensures TranslateSegment("{id}x") == "{id}x"
    ensures TranslateSegment("x{id}") == "x{id}"
  {
  }

  /** Translation brings in no rune but `:`: every other rune of the gin
      path comes from the OpenAPI path. */
  lemma GinPathRunes(path: string, c: char)
    requires c != ':'
    ensures c in GinPathOf(path) ==> c in path
  {
    if c in GinPathOf(path) {
      if c == '/' {
        GinPathKeepsSlashes(path);
      } else {
        var parts := Split(path, '/');
        var translated := TranslateAll(parts);
        JoinRunes(translated, '/', c);
        var i :| 0 <= i < |translated| && c in translated[i];
        var seg := parts[i];
        if IsParam(seg) {
          var k :| 0 <= k < |translated[i]| && translated[i][k] == c;
          assert translated[i] == ":" + seg[1..|seg| - 1];
          assert seg[k] == c;
        }
        assert c in parts[i];
        JoinRunes(parts, '/', c);
        JoinSplit(path, '/');
      }
    }
  }

  /** A literal segment followed by a parameter segment: the parameter
      becomes `:` and its name, the literal segment is kept. */
  lemma {:induction false} LiteralThenParam(literal: string, name: string)
    requires '/' !in literal && !IsParam(literal) && '/' !in name
    ensures GinPathOf("/" + (literal + "/" + ("{" + name + "}")))
         == "/" + (literal + "/" + (":" + name))
  {
    var param := "{" + name + "}";
    GinPathConcat("", literal + "/" + param);
    assert "" + "/" + (literal + "/" + param) == "/" + (literal + "/" + param);
    GinPathConcat(literal, param);
    GinPathOfSegment("");
    GinPathOfSegment(literal);
    GinPathOfSegment(param);
    ParamSegment(name);
  }
}
