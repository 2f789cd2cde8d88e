/**
 * The query engine (internal/query/engine.go): it answers a path typed by
 * the user and remembers the last path that resolved together with the text
 * it showed for it, so that a path that does not resolve still has something
 * to display.
 */
module QueryEngine {
  import opened Wrappers
  import opened JsonPath

  /** What one query hands back to the display. */
  datatype QueryResult = QueryResult(value: string, isValid: bool, error: string)

  /**
   * The JSON text services the engine borrows: the raw document text of a
   * matched object or array (gjson's Result.Raw) and prettyPrintJSON, which
   * re-indents JSON text and yields None where encoding/json reports an error.
   */
  datatype Printer = Printer(rawText: Json -> string, prettyPrint: string -> Option<string>)

  /** What an engine reads and never changes: the document text, its parsed tree and the printer. */
  datatype Document = Document(jsonData: string, tree: Json, printer: Printer)

  /** What an engine remembers between queries. */
  datatype Snapshot = Snapshot(lastValidPath: string, lastValidValue: string)

  /** The error reported for a path that does not resolve. */
  function InvalidPathMessage(path: string): (msg: string)
    ensures |msg| == |path| + 31
    ensures msg[15..15 + |path|] == path
  {
    "Invalid path: '" + path + "' does not exist"
  }

  /** gjson's Result.String(): the text of a scalar, the raw text of an object or array. */
  function ResultString(printer: Printer, v: Json): string
  {
    match v
    case Null => ""
    case Bool(b) => if b then "true" else "false"
    case Num(literal) => literal
    case Str(text) => text
    case _ => printer.rawText(v)
  }

  /** The text shown for a matched value: objects and arrays pretty-printed when that succeeds, raw otherwise. */
  function Rendered(printer: Printer, v: Json): (text: string)
    ensures v.Str? ==> text == v.text
    ensures v.Num? ==> text == v.literal
    ensures v.Null? ==> text == ""
    ensures v.Bool? ==> text == (if v.flag then "true" else "false")
    ensures v.IsContainer() ==>
      text == (if printer.prettyPrint(printer.rawText(v)).Some? then printer.prettyPrint(printer.rawText(v)).value else printer.rawText(v))
  {
    var valueStr := ResultString(printer, v);
    if v.IsContainer() then
      match printer.prettyPrint(printer.rawText(v))
      case Some(pretty) => pretty
      case None => printer.rawText(v)
    else valueStr
  }

  /**
   * One query as a transition: the result handed back and what the engine
   * remembers afterwards.
   */
  function Step(d: Document, s: Snapshot, path: string): (out: (QueryResult, Snapshot))
    ensures out.0.isValid <==> out.0.error == ""
    ensures !out.0.isValid <==> path != "" && Lookup(d.tree, path).None?
    ensures !out.0.isValid ==>
      && out.1 == s
      && out.0.value == s.lastValidValue
      && out.0.error == InvalidPathMessage(path)
    ensures path != "" && out.0.isValid ==>
      out.1 == Snapshot(path, out.0.value) && out.0.value == Rendered(d.printer, Lookup(d.tree, path).value)
    ensures path == "" ==>
      match d.printer.prettyPrint(d.jsonData)
      case Some(pretty) => out == (QueryResult(pretty, true, ""), Snapshot("", pretty))
      case None => out == (QueryResult(d.jsonData, true, ""), s)
  {
    if path == "" then
      match d.printer.prettyPrint(d.jsonData)
      case None => (QueryResult(d.jsonData, true, ""), s)
      case Some(pretty) => (QueryResult(pretty, true, ""), Snapshot("", pretty))
    else
      match Lookup(d.tree, path)
      case None => (QueryResult(s.lastValidValue, false, InvalidPathMessage(path)), s)
      case Some(v) =>
        var text := Rendered(d.printer, v);
        (QueryResult(text, true, ""), Snapshot(path, text))
  }

  /**
   * What the engine remembers is always explained by the document: an empty
   * path with the document text as given or as pretty-printed, or a path
   * that resolves together with the text shown for its value.
   */
  ghost predicate Consistent(d: Document, s: Snapshot)
  {
    if s.lastValidPath == "" then
      s.lastValidValue == d.jsonData || d.printer.prettyPrint(d.jsonData) == Some(s.lastValidValue)
    else
      Lookup(d.tree, s.lastValidPath).Some?
      && s.lastValidValue == Rendered(d.printer, Lookup(d.tree, s.lastValidPath).value)
  }

  /** A sequence of queries, each one starting from what the previous one left behind. */
  function Run(d: Document, s: Snapshot, paths: seq<string>): (out: (seq<QueryResult>, Snapshot))
    ensures |out.0| == |paths|
    decreases |paths|
  {
    if paths == [] then ([], s)
    else
      var first := Step(d, s, paths[0]);
      var rest := Run(d, first.1, paths[1..]);
      ([first.0] + rest.0, rest.1)
  }

  /** The engine: the document it was created with and the last valid path and value. */
  class Engine {
    const jsonData: string
    const tree: Json
    const printer: Printer
    var lastValidPath: string
    var lastValidValue: string

    function Doc(): Document
    {
      Document(jsonData, tree, printer)
    }

    function State(): Snapshot
      reads this
    {
      Snapshot(lastValidPath, lastValidValue)
    }

    ghost predicate Valid()
      reads this
    {
      Consistent(Doc(), State())
    }

    /** NewEngine: no valid path yet, and the raw document text (not pretty-printed) as the fallback value. */
    constructor (jsonData: string, tree: Json, printer: Printer)
      ensures this.jsonData == jsonData && this.tree == tree && this.printer == printer
      ensures lastValidPath == "" && lastValidValue == jsonData
      ensures Valid()
    {
      this.jsonData := jsonData;
      this.tree := tree;
      this.printer := printer;
      lastValidPath := "";
      lastValidValue := jsonData;
    }

    /** Answers `path` and updates the remembered path and value only when it resolves. */
    method Query(path: string) returns (r: QueryResult)
      modifies this
      ensures (r, State()) == Step(Doc(), old(State()), path)
      ensures old(Valid()) ==> Valid()
    {
      if path == "" {
        var prettyJSON := printer.prettyPrint(jsonData);
        if prettyJSON.None? {
          return QueryResult(jsonData, true, "");
        }
        lastValidPath := "";
        lastValidValue := prettyJSON.value;
        return QueryResult(prettyJSON.value, true, "");
      }

      var result := Lookup(tree, path);
      if result.None? {
        return QueryResult(lastValidValue, false, InvalidPathMessage(path));
      }

      lastValidPath := path;
      var valueStr := ResultString(printer, result.value);
      if result.value.IsContainer() {
        var prettyJSON := printer.prettyPrint(printer.rawText(result.value));
        if prettyJSON.Some? {
          valueStr := prettyJSON.value;
        } else {
          valueStr := printer.rawText(result.value);
        }
      }
      lastValidValue := valueStr;
      return QueryResult(valueStr, true, "");
    }

    method GetLastValidPath() returns (path: string)
      ensures path == lastValidPath
    {
      path := lastValidPath;
    }

    method GetLastValidValue() returns (value: string)
      ensures value == lastValidValue
    {
      value := lastValidValue;
    }
  }

  /** A query keeps what the engine remembers consistent with the document. */
  lemma StepKeepsConsistent(d: Document, s: Snapshot, path: string)
    requires Consistent(d, s)
    ensures Consistent(d, Step(d, s, path).1)
  {
  }

  /** Asking the same path twice in a row gives the same answer and leaves the engine where the first query left it. */
  lemma RepeatedQuery(d: Document, s: Snapshot, path: string)
    ensures var (r1, s1) := Step(d, s, path);
      Step(d, s1, path) == (r1, s1)
  {
  }

  /** Consistency survives any sequence of queries. */
  lemma {:induction false} RunKeepsConsistent(d: Document, s: Snapshot, paths: seq<string>)
    requires Consistent(d, s)
    ensures Consistent(d, Run(d, s, paths).1)
    decreases |paths|
  {
    if paths != [] {
      StepKeepsConsistent(d, s, paths[0]);
      RunKeepsConsistent(d, Step(d, s, paths[0]).1, paths[1..]);
    }
  }

  /**
   * Paths that do not resolve never disturb the engine: after any number of
   * them it remembers what it did before, and each one shows that value
   * with its own error.
   */
  lemma {:induction false} FailedQueriesKeepState(d: Document, s: Snapshot, paths: seq<string>)
    requires forall j :: 0 <= j < |paths| ==> paths[j] != "" && Lookup(d.tree, paths[j]).None?
    ensures Run(d, s, paths).1 == s
    ensures forall j :: 0 <= j < |paths| ==>
      Run(d, s, paths).0[j] == QueryResult(s.lastValidValue, false, InvalidPathMessage(paths[j]))
    decreases |paths|
  {
    if paths != [] {
      FailedQueriesKeepState(d, s, paths[1..]);
      var rs := Run(d, s, paths[1..]).0;
      assert Run(d, s, paths).0 == [Step(d, s, paths[0]).0] + rs;
      forall j | 1 <= j < |paths|
        ensures Run(d, s, paths).0[j] == QueryResult(s.lastValidValue, false, InvalidPathMessage(paths[j]))
      {
        assert paths[1..][j - 1] == paths[j];
      }
    }
  }

  /** Running two sequences of queries one after the other is running their concatenation. */
  lemma {:induction false} RunAppend(d: Document, s: Snapshot, first: seq<string>, second: seq<string>)
    ensures Run(d, s, first + second).1 == Run(d, Run(d, s, first).1, second).1
    decreases |first|
  {
    if first != [] {
      assert (first + second)[0] == first[0];
      assert (first + second)[1..] == first[1..] + second;
      RunAppend(d, Step(d, s, first[0]).1, first[1..], second);
    } else {
      assert first + second == second;
    }
  }

  /**
   * After a query that resolves followed by any number that do not, the
   * engine remembers that query's path and the text it showed for it.
   */
  lemma LastSuccessIsRemembered(d: Document, s: Snapshot, before: seq<string>, path: string, after: seq<string>)
    requires path != "" && Lookup(d.tree, path).Some?
    requires forall j :: 0 <= j < |after| ==> after[j] != "" && Lookup(d.tree, after[j]).None?
    ensures Run(d, s, before + [path] + after).1 == Snapshot(path, Rendered(d.printer, Lookup(d.tree, path).value))
  {
    var mid := Run(d, s, before).1;
    RunAppend(d, s, before, [path]);
    RunAppend(d, s, before + [path], after);
    assert Run(d, mid, [path]).1 == Step(d, mid, path).1;
    FailedQueriesKeepState(d, Run(d, s, before + [path]).1, after);
  }
}
