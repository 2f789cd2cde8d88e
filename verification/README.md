# dive: path query engine and autocomplete, modelled in Dafny

`dive` lets a user walk through a JSON document by typing a dotted path. The
display updates as each key is typed, and autocomplete is offered for the
next segment. This project models the two pieces of the program that have
logic of their own:

- **The query engine** (`internal/query/engine.go`), in `engine.dfy`, module
  `QueryEngine`. The class `Engine` holds the document. It also remembers the
  last path that resolved and the text it showed for that path. `Query`
  changes that memory only when the path resolves. When the path does not
  resolve, it returns the remembered text together with an error.
  - `Query` is proved against the pure transition `Step`.
  - `Step` states what one query returns and leaves behind.
  - `Run` chains `Step` over a sequence of queries. It is used to show that
    failed queries never disturb the remembered state. It is also used to
    show that the remembered state is always explained by the document
    (`Consistent`).
- **The suggester** (`internal/autocomplete/suggester.go`), in
  `suggester.dfy`, module `Autocomplete`. `GetSuggestions` works in four steps:
  1. It splits the typed path at its last dot.
  2. It lists the member names or array positions under the base path.
  3. It keeps the candidates that start with the token being typed.
  4. It puts the base path back in front of each survivor.

  Each loop of the source (`extractKeys`, `filterByPrefix`, the loop that
  builds the full paths) is a method with loop invariants. Each method is
  proved against a specification function (`KeysAt`, `Filter`,
  `Suggestions`). Lemmas then state what the source promises about those
  functions.

Both pieces use the gjson library to evaluate paths. That library is not part
of this model. `json.dfy` (module `JsonPath`) supplies a stand-in for it:
- a closed `Json` datatype, where object members keep their document order;
- `Lookup`, which resolves dot-separated segments one at a time. An object
  segment takes the first member with that name. An array segment is read as
  a decimal index.

`strings.dfy` holds the two Go `strings` functions the suggester uses.
`wrappers.dfy` holds `Option`.

Two points where the program's own comments and tests say one thing and its
code does another; the model follows the code:
- The comment at `suggester.go:92` says array indices are suggested "as
  strings", but the code offers the one character whose code is `'0' + i`
  (`suggester.go:95`). Positions 0–9 come out as the digits. Position 10
  comes out as `":"`, and no position from 10 until `'0' + i` wraps round at
  32 bits is one a lookup resolves (`IndexKeyBelowTen`, `IndexKeyNotDecimal`, `SuggestionsResolve`). The
  conversion is modelled exactly: Go's `rune` truncates to 32 bits, and an
  invalid code point becomes U+FFFD.
- The test comment at `engine_test.go:202` calls the initial fallback value
  "pretty-printed JSON", but `NewEngine` stores the raw document text
  (`engine.go:29`), and so does the model.

One behaviour of the code that surprises, kept as it is:
- The path is split at its last dot, whatever comes before that dot. Escaped
  dots are not recognised. A path such as `".na"` therefore has an empty base,
  so its suggestions (`"name"`) do not start with the typed text.
  `SuggestionsExtendTypedPath` states the prefix law only for the cases where
  it holds.

## Model

| member | source | states |
|---|---|---|
| `Strings.LastIndex` | internal/autocomplete/suggester.go:58 | the result is -1 exactly when the character is absent; otherwise it is a position holding the character, with no occurrence after it |
| `JsonPath.FieldValue` | internal/query/engine.go:56 | the value found is that of the first member with the name; when none is found, no member has that name |
| `JsonPath.FirstMemberWins` | internal/query/engine.go:56 | where an object repeats a member name, a one-segment path naming it reaches the first member with that name, wherever it stands |
| `JsonPath.DecimalValue` | internal/query/engine.go:56 | a single digit reads as its own value, and a run of k digits denotes a number below 10^k |
| `JsonPath.ParseIndex` | internal/query/engine.go:56 | a segment is an array index exactly when it is a non-empty run of decimal digits, and the index is the number those digits denote |
| `JsonPath.SplitJoin` | internal/query/engine.go:56 | the lookup's segments joined with dots give the path back, and no segment contains a dot |
| `JsonPath.Lookup` | internal/query/engine.go:56 | stands in for `gjson.Get`: a path resolves only inside an object or array, never inside a scalar document |
| `JsonPath.LookupSingle` | internal/autocomplete/suggester.go:25 | a path with no dot names one child of the document |
| `JsonPath.LookupExtend` | internal/autocomplete/suggester.go:25 | looking up `base + "." + key`, with a dot-free key, gives the `key` child of whatever `base` resolves to |
| `Autocomplete.ParsePathForAutocomplete` | internal/autocomplete/suggester.go:56-73 | with no dot the result is `("", path)`; otherwise `base + "." + incomplete == path` and `incomplete` has no dot; a trailing dot gives `incomplete == ""` |
| `Autocomplete.ExtractKeys` | internal/autocomplete/suggester.go:82-100 | returns `KeysAt(result)`: an object's member names in document order; for an array of n elements, n entries with entry i the character of code `'0'+i`; nothing for a scalar |
| `Autocomplete.GetTopLevelKeys` | internal/autocomplete/suggester.go:76-79 | returns the candidates under the whole document |
| `Autocomplete.FilterByPrefix` | internal/autocomplete/suggester.go:103-116 | an empty prefix returns the list unchanged; otherwise the result is `Filter(keys, prefix)` |
| `Autocomplete.PrefixWithBase` | internal/autocomplete/suggester.go:39-47 | entry j is `basePath + "." + key j`, or just key j when the base is empty |
| `Autocomplete.GetSuggestions` | internal/autocomplete/suggester.go:10-50 | an empty path gives every top-level key unfiltered and in order; any path gives exactly `Suggestions(doc, path)` |
| `Autocomplete.FilterEmptyPrefix` | internal/autocomplete/suggester.go:104-106 | filtering by the empty prefix keeps every key, so the early return agrees with the loop |
| `Autocomplete.FilterMembership` | internal/autocomplete/suggester.go:108-113 | a key is in the filtered list exactly when it is one of the keys and starts with the prefix |
| `Autocomplete.FilterIsOrderedSelection` | internal/autocomplete/suggester.go:108-115 | the filtered list is the keys at a strictly increasing run of positions, exactly the positions whose key has the prefix, so it is no longer than the input and keeps its order |
| `Autocomplete.ToRune` | internal/autocomplete/suggester.go:95 | Go's `rune(...)`: the result is the signed 32-bit value congruent to the argument modulo 2^32, so equal to the argument whenever it already fits |
| `Autocomplete.RuneString` | internal/autocomplete/suggester.go:95 | Go's `string(rune)`: exactly one character, the code point itself when it is a Unicode scalar value and U+FFFD otherwise |
| `Autocomplete.IndexKeyBelowTen` | internal/autocomplete/suggester.go:93-96 | for i < 10 the index key is the digit of i, and the lookup reads it back as i |
| `Autocomplete.IndexKeyNotDecimal` | internal/autocomplete/suggester.go:93-96 | position 10 is offered as `":"`; for every position from 10 until `'0' + i` wraps round at 32 bits, the key is not a decimal and no array lookup resolves it |
| `Autocomplete.EmptyPathSuggestsTopLevelKeys` | internal/autocomplete/suggester.go:12-14 | the empty-path shortcut returns what the general procedure would return: every top-level key in order |
| `Autocomplete.NoSuggestionsUnderScalarOrMissingBase` | internal/autocomplete/suggester.go:29-31 | when the base path does not resolve, or resolves to a scalar, nothing is suggested |
| `Autocomplete.SuggestionShape` | internal/autocomplete/suggester.go:33-49 | entry j is the base joined to the key at the j-th selected position under the base; that key starts with the typed token; the selected positions increase; there are never more suggestions than keys |
| `Autocomplete.JoinKeepsPrefix` | internal/autocomplete/suggester.go:42-46 | joining a base to a key that extends the token extends the base joined to the token |
| `Autocomplete.SuggestionsExtendTypedPath` | internal/autocomplete/suggester.go:37-47 | when the base is non-empty, or the path has no dot, every suggestion starts with the typed path |
| `Autocomplete.SuggestionsResolve` | internal/autocomplete/suggester.go:82-100 | when the base node is an object none of whose member names holds a dot, or an array of at most ten elements, every suggestion is itself a path that resolves |
| `QueryEngine.InvalidPathMessage` | internal/query/engine.go:64 | the error is `Invalid path: '<path>' does not exist`: it has 31 characters besides the path and holds the path at position 15 |
| `QueryEngine.Rendered` | internal/query/engine.go:71-82 | a string shows its text unquoted, a number its literal, null as empty, a boolean as `true`/`false`; an object or array shows its pretty-printed raw text, or the raw text when pretty-printing fails |
| `QueryEngine.Step` | internal/query/engine.go:34-91 | `IsValid` holds exactly when `Error` is empty, and fails exactly for a non-empty path that does not resolve. A failed query returns the remembered value and the error and leaves the state alone. A resolving non-empty path remembers the path and its rendered value and returns that value. The empty path returns the pretty-printed document and remembers it, or, if pretty-printing fails, returns the raw text and changes nothing |
| `QueryEngine.Engine.constructor` | internal/query/engine.go:25-31 | a new engine has no last valid path and the raw document text as its value, and is consistent |
| `QueryEngine.Engine.Query` | internal/query/engine.go:34-91 | the result and the new (path, value) pair are `Step` of the old pair; consistency is preserved |
| `QueryEngine.Engine.GetLastValidPath` | internal/query/engine.go:94-96 | returns the remembered path |
| `QueryEngine.Engine.GetLastValidValue` | internal/query/engine.go:99-101 | returns the remembered value |
| `QueryEngine.StepKeepsConsistent` | internal/query/engine.go:34-91 | after any query the remembered value is still the rendering of the remembered path (or the document text for the empty path) |
| `QueryEngine.RepeatedQuery` | internal/query/engine.go:34-91 | asking the same path twice in a row gives identical results, and the second query leaves the state where the first left it |
| `QueryEngine.RunKeepsConsistent` | internal/query/engine.go:34-91 | consistency holds after any sequence of queries |
| `QueryEngine.FailedQueriesKeepState` | internal/query/engine.go:58-66 | after any number of non-resolving queries the state is unchanged, and each of them returned the remembered value with its own error |
| `QueryEngine.RunAppend` | internal/query/engine.go:34-91 | running two sequences of queries one after the other equals running their concatenation |
| `QueryEngine.LastSuccessIsRemembered` | internal/query/engine.go:58-90 | after a resolving query followed by any number of failing ones, the engine remembers that query's path and rendered value |

## Left out

- gjson's path language beyond plain field names and decimal indices is not modelled. That covers `#` counts, `#(...)#` filters, `*` and `?` wildcards, `|@` modifiers, `{...}` multipaths, slices, backslash escapes and negative indices. `Lookup` stands in for `gjson.Get` and `gjson.Parse`, which are foreign code.
- JSON text parsing is not modelled. An engine is given the document text together with its parsed tree.
- `prettyPrintJSON` (`encoding/json` re-indentation) and gjson's raw slice of a matched value are not modelled. Both are parameters (`Printer`), and the model leaves them uninterpreted.
- Number text is left out. A number keeps its literal text, and gjson's `String()` is modelled as that text. gjson re-formats non-integer literals through float64 (`1.50` becomes `1.5`), and that re-formatting is not modelled.
- Object keys are stored already unescaped. The unescaping that gjson's `key.String()` does is not modelled.
- Strings are sequences of characters, not UTF-8 bytes. `strings.LastIndex` returns a byte offset, but slicing at it gives the same two parts.
- The UI, file, stdin and clipboard I/O, the message timer goroutine and the colour theme are not part of this model. The UI calls `Query` once at startup with the document text itself as the path (`app.go:71`) and then on each change of the input (`app.go:270-277`); it calls `GetSuggestions` only when Tab is pressed (`app.go:226-228`). `Run` stands for any such sequence of queries.
- Lookup: a document that repeats a member name is outside the model, whose objects are meant to have unique keys. At every segment the model stops at the first member with the name; gjson's scanner goes on to later members of the same name when the rest of the path misses under the first, so on `{"a":{"x":null},"a":{"y":null}}` gjson finds `a.y` and the model does not. For a one-segment path the two agree (`FirstMemberWins`).
