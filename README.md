# ogen-ginwrap route generator, modelled in Dafny

ogen-ginwrap reads an OpenAPI document and writes a Go source file. The
file holds one function, `RegisterRoutes`, which attaches an ogen HTTP
handler to a gin engine once for every recognised method key of every
path the document declares. Keys are recognised up to case, so a path
item with both a `get` and a `GET` key is registered for GET twice. This project models the generator's core in `main.go`:

- **Path translation** (`gin_path.dfy`, module `GinPath`). An OpenAPI path
  template such as `/pets/{petId}` becomes gin's route syntax
  `/pets/:petId`. `convertPathToGin` is modelled as an imperative method.
  Its specification function `GinPathOf` splits the path on `/`, translates
  each segment and joins the segments again.
- **Route derivation** (`routes.dfy`, module `Routes`). For each path item
  of the document's `paths` map, the keys are folded to lower case and
  filtered against the eight HTTP methods (get, post, put, delete, patch,
  head, options, trace). The kept keys are upper-cased, and a path with no
  method is skipped. The two nested loops of `main` are methods
  (`CollectMethods`, `DeriveRoutes`). Each is proved equal to a recursive
  specification function (`RouteMethods`, `RoutesOf`).
- **Base-path normalisation** (`base_path.dfy`, module `BasePath`). This is
  the code the generated function runs on its `basePath` argument: add a
  leading `/` when it is missing, then trim trailing `/`. An empty base
  path is kept as is.
- **Template execution** (`template.dfy`, module `Template`). This is the
  text the Go template `tpl` produces. The `{{-` actions trim the white
  space before them, so each registration is `\n\tr.M(basePath + "P",
  gin.WrapH(ogenHandler))`. The registrations follow the base-path block
  directly, in route order and then method order, and the file ends with
  `\n}\n`. The gin path is pasted into a Go string literal without
  escaping. The line-by-line statements about the generated file therefore
  assume that no path holds a newline.
- **The generator** (`generator.dfy`, module `Generator`). Route derivation
  followed by template execution.
- **String helpers** (`text.dfy`, module `Text`). The parts of Go's
  `strings` package that the generator relies on: `Split`, `Join`,
  `TrimRight`, `ToLower` and `ToUpper`.

Go strings are modelled as `seq<char>`, that is, as sequences of runes.
`convertPathToGin` indexes bytes, but `{`, `}` and `/` are ASCII. For
valid UTF-8, testing the first and last byte is therefore the same as
testing the first and last rune, and `part[1:len(part)-1]` is exactly the
runes between the braces. Splitting on `/` also gives the same pieces.

Go's map iteration order is unspecified. The model takes the `paths` map
as a sequence of path items in iteration order, and each item's keys as a
sequence in iteration order. Every statement about order (route order,
method order) is relative to that order.

## Model

| member | source | states |
|---|---|---|
| `GinPath.TranslateSegment` | main.go:33-38 | A segment changes only when it is a parameter (first rune `{`, last rune `}`), and then the result starts with `:`. A result is never itself a parameter unless it is the unchanged segment. A slash-free segment stays slash-free. |
| `GinPath.ConvertPathToGin` | main.go:30-41 | The loop that overwrites parameter segments in place returns the specification `GinPathOf(path)`: each `/`-separated segment translated, then joined with `/`. |
| `GinPath.GinPathSegments` | main.go:30-41 | Splitting the result on `/` gives exactly the input's segments, each translated on its own: `{name}` becomes `:name`, and every other segment (empty, lone brace, literal) is unchanged. |
| `GinPath.GinPathKeepsSlashes` | main.go:30-41 | The result has as many `/` as the input, so a route keeps its depth. |
| `GinPath.GinPathIdempotent` | main.go:30-41 | Translating an already translated path changes nothing. |
| `GinPath.GinPathOfSegment` | main.go:31-40 | A path without `/` translates as a single segment. |
| `GinPath.GinPathConcat` | main.go:30-41 | Translation is compositional: translating `a + "/" + b` gives the translations of `a` and `b` joined by `/`. |
| `GinPath.ParamSegment` | main.go:36-37 | `{name}` becomes `:name` for every name, including the empty one (`{}` becomes `:`). |
| `GinPath.SegmentExamples` | main.go:33-36 | The empty segment, the lone braces `{` and `}`, and segments that merely contain a parameter (`{id}x`, `x{id}`) are kept. |
| `GinPath.TranslateAllStable` | main.go:32-39 | Translating the translated segments again changes none of them: a rewritten segment starts with `:` and is no longer a parameter. |
| `GinPath.GinPathRunes` | main.go:30-41 | Translation adds no rune except `:`. In particular a path without a newline translates to a gin path without one. |
| `GinPath.LiteralThenParam` | main.go:30-41 | A path shaped like `/pets/{petId}` (a literal segment, then a parameter segment) becomes `/pets/:petId`: the literal segment is kept and the parameter becomes `:` and its name. |
| `Text.Split` | main.go:31 | `strings.Split` on one separator: at least one piece, and no piece contains the separator. |
| `Text.SplitLength` | main.go:31 | There is one piece more than there are separators. |
| `Text.JoinSplit` | main.go:31-40 | Joining the pieces of a split gives back the original string. |
| `Text.SplitJoin` | main.go:31-40 | Splitting the join of separator-free pieces gives back the pieces. |
| `Text.SplitConcat` | main.go:31 | Splitting `a + sep + b` gives the pieces of `a` followed by the pieces of `b`. |
| `Text.Join` | main.go:40 | `strings.Join`: its length and its runes are stated by `JoinLength` and `JoinRunes`, and its round trips with `Split` by `JoinSplit` and `SplitJoin`. |
| `Text.JoinLength` | main.go:40 | The joined string is as long as all pieces together plus one separator between each two. |
| `Text.JoinRunes` | main.go:40 | Apart from the separator, a rune occurs in the join exactly when it occurs in some piece. |
| `Text.TrimRight` | main.go:59 | `strings.TrimRight` with a one-rune cut set: the result is a prefix, it does not end with the cut rune, and everything removed is the cut rune. |
| `Text.LowerRune` | main.go:120 | ASCII capitals map to their small letters. The only runes changed are the ASCII capitals, U+0130 and U+212A. |
| `Text.UpperRune` | main.go:122 | ASCII small letters map to their capitals, and nothing else changes. |
| `Text.ToLower` | main.go:120 | `strings.ToLower`, rune by rune. Its properties are stated by `ToLowerIdempotent`. |
| `Text.ToLowerIdempotent` | main.go:120 | Lower-casing twice is lower-casing once. Text with no ASCII capital, no U+0130 and no U+212A is kept. |
| `Text.ToUpper` | main.go:122 | `strings.ToUpper`, rune by rune. Its properties are stated by `ToUpperResult`. |
| `Text.ToUpperResult` | main.go:122 | The result has no ASCII small letter. Text without ASCII small letters is kept. |
| `Routes.UpperOfValidMethod` | main.go:105-122 | Upper-casing one of the eight accepted lower-case names gives the standard HTTP method name, and lower-casing it gives the name back. |
| `Routes.Recognised` | main.go:120-121 | A key is recognised when its lower-case form is one of the eight method names. `MethodName`, `RouteMethodsMembers` and `MethodCaseExamples` state what this accepts. |
| `Routes.MethodName` | main.go:120-122 | A recognised key yields a standard HTTP method name that agrees with the key up to case. |
| `Routes.RouteMethods` | main.go:118-124 | The methods of a path item: no more than its keys, and each one a standard HTTP method name. |
| `Routes.CollectMethods` | main.go:118-124 | The inner loop returns `RouteMethods(keys)`. |
| `Routes.RouteMethodsConcat` | main.go:119-124 | Method order follows key order: the keys of two runs contribute their methods one run after the other. |
| `Routes.RouteMethodsCount` | main.go:118-124 | One method per recognised key, no more and no fewer. |
| `Routes.RouteMethodsMembers` | main.go:118-124 | A name is among the methods exactly when some key is recognised and maps to it. |
| `Routes.RouteMethodsEmpty` | main.go:118-127 | A path item has no methods exactly when none of its keys is a recognised method. |
| `Routes.MethodCaseExamples` | main.go:105-124 | `Get`, `get` and `GET` all give `GET`. `parameters` and `summary` are ignored. The keys `get, parameters, Post` give `GET, POST`. |
| `Routes.RouteOf` | main.go:128-132 | The route of a path item: the path, its translation and the item's methods. `RoutesSound` and `RoutesComplete` tie it to `RoutesOf`. |
| `Routes.RoutesOf` | main.go:116-133 | No more routes than path items, and every route is well formed: it has at least one method, every method is a standard name, and its gin path is the translation of its path. |
| `Routes.DeriveRoutes` | main.go:116-133 | The outer loop returns `RoutesOf(items)`. |
| `Routes.RoutesConcat` | main.go:116-133 | Route order follows path-item order. |
| `Routes.RoutesSound` | main.go:116-133 | Every route comes from a path item with a recognised key, and is that item's path, gin path and methods. |
| `Routes.RoutesComplete` | main.go:116-133 | Every path item with a recognised key gives its route. |
| `Routes.UnrecognisedItemDropped` | main.go:125-127 | A path item without a recognised key adds no route. |
| `BasePath.NormalizedBasePath` | main.go:55-60 | The empty base path stays empty. Otherwise the result starts with `/` and does not end with `/`. The result is a prefix of the input with `/` added in front when it was missing, and only `/` was trimmed. |
| `BasePath.NormalizeBasePath` | main.go:55-60 | The generated code's reassignments compute `NormalizedBasePath`. |
| `BasePath.BasePathIdempotent` | main.go:55-60 | Normalising a normalised base path changes nothing. |
| `BasePath.BasePathExamples` | main.go:55-60 | `/` becomes empty. `api` becomes `/api`. `/api/` and `/api//` become `/api`. |
| `Template.Registration` | main.go:65 | One statement: `r.`, the method, `(basePath + "`, the gin path verbatim, then `", gin.WrapH(ogenHandler))`. `RegistrationInjective` and `RegistrationSingleLine` state its properties. |
| `Template.RegistrationSingleLine` | main.go:65 | A statement spans more than one line exactly when its method or its gin path holds a newline, since both are pasted verbatim. |
| `Template.Render` | main.go:43-69 | The text the template produces: the header, the indented statement lines and `\n}\n`. `RenderLines` and `RenderConcat` state its properties. |
| `Template.Registrations` | main.go:62-67 | One statement per (route, method) pair. |
| `Template.RegistrationsConcat` | main.go:62-67 | Statements follow route order. |
| `Template.RegistrationAt` | main.go:62-67 | The statement for method `j` of route `i` comes after those of all earlier pairs, and registers that method at that route's gin path. |
| `Template.RegistrationInjective` | main.go:65 | A statement determines its method and its gin path. |
| `Template.LinesConcat` | main.go:62-67 | The lines of two runs of statements are the lines of the first run followed by those of the second. |
| `Template.BodyConcat` | main.go:62-67 | The statement block of two route lists is the block of the first list followed by the block of the second. |
| `Template.RenderConcat` | main.go:43-69 | The file for two route lists is the header, the first list's block, the second list's block and the closing `\n}\n`. |
| `Template.SplitLines` | main.go:62-68 | Text made of newline-free lines, each after a newline, splits on newlines into exactly those lines, between the lines of what comes before and after. |
| `Template.BodyLines` | main.go:62-68 | After any head, the statement block and `\n}\n` split into the head's lines, one line per statement (a tab and the statement), `}` and the empty text after the last newline. |
| `Template.RenderLines` | main.go:43-69 | Line by line, the generated file is the header's lines, then one tab-indented line per (route, method) statement in order, then `}` and the empty remainder. This holds when no gin path and no method holds a newline. |
| `Generator.Generate` | main.go:116-157 | Generation is the template executed on the package name and `RoutesOf` of the path items. |
| `Generator.ItemRegistrations` | main.go:116-133 | Each path item adds its own statements after those of the earlier items: one per recognised key, at its translated path, in key order. An item with no recognised key adds none. |
| `Generator.PairRegistrations` | main.go:116-133 | A two-item document registers the first item's statements, then the second's. |
| `Generator.PetStoreExample` | main.go:105-133 | A Petstore-style document, such as `/pets/{petId}` with keys get and post and `/health` with key get, stated for any two paths: it registers GET and POST at the first path's gin form, then GET at the second's. |
| `Generator.RouteOfSingleLine` | main.go:116-133 | The route of a path item without a newline in its path has no newline in its gin path or its methods. |
| `Generator.RoutesSingleLine` | main.go:116-133 | No route derived from a document whose paths hold no newline holds one. |
| `Generator.DocumentLines` | main.go:116-157 | For a document whose paths hold no newline, the generated file is, line by line, the header's lines, then one tab-indented statement line per recognised key of every path, in order, then `}` and the empty remainder. |

## Left out

- Flag parsing, reading the input file, creating the output directory and file, and writing the result (main.go:71-89, 142-159) are I/O. `Generate` returns the text instead. `log.Fatal` exits are not modelled.
- Choosing the decoder by file extension and the YAML/JSON decoding itself (main.go:91-103) are not part of this model. The decoded `paths` map is an input: a sequence of path items, each with its keys.
- Go map iteration order is an input, not modelled randomness. Two runs on the same document may order routes and methods differently. The model speaks about the order the maps are iterated in.
- `text/template` is not modelled as an engine. `Render` is the text that the fixed template `tpl` produces, and its parse and execution failures are not modelled: `template.Must` always succeeds on the constant template, and write errors are I/O.
- `Text.LowerRune`: `unicode.ToLower` is modelled only on the runes whose lower-case form is ASCII; every other rune is kept. Only the result's membership in the eight method names matters, so recognition is exact.
- `Text.UpperRune`: `unicode.ToUpper` is modelled on ASCII only. It is applied only to one of the eight accepted lower-case names.
- Go strings are modelled as rune sequences, not byte sequences. For the ASCII separators and braces used here both give the same result. Paths that are not valid UTF-8 are not modelled.
- Whether gin accepts the generated routes (conflicting wildcards, empty parameter names such as `:` from `{}`) is gin's behaviour and not part of this model.
- Escaping of gin paths in the generated Go source is not done by the generator, so it is not modelled either: `Registration` pastes the path verbatim into an interpreted Go string literal. A path holding `"` or `\` may then fail to compile, register a different path (`/a\tb` registers a tab), or end the literal and inject code. A newline makes the statement span lines. What the resulting Go code means is not part of this model. `RegistrationSingleLine` states the newline case, and the line-by-line lemmas assume there is none.
- For a Petstore-style document with `/pets/{petId}` (get, post) and `/health` (get), the gin paths are not evaluated on those exact strings. `LiteralThenParam` states the result for every path of that shape, and `PetStoreExample` is stated for any two paths.
