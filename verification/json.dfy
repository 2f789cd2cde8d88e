/**
 * The parsed JSON document and the plain path lookup that the query engine
 * and the suggester obtain from the gjson library. Only the part of gjson's
 * path language the program's own paths use is modelled: dot-separated
 * segments, each an object field name or a decimal array index.
 */
module JsonPath {
  import opened Wrappers
  import opened Strings

  /**
   * A JSON value. Object members keep their document order; a number keeps
   * its literal text, as gjson's raw slice does.
   */
  datatype Json =
    | Null
    | Bool(flag: bool)
    | Num(literal: string)
    | Str(text: string)
    | Arr(items: seq<Json>)
    | Obj(fields: seq<(string, Json)>)
  {
    /** An object or an array, as opposed to a scalar. */
    predicate IsContainer()
    {
      Obj? || Arr?
    }
  }

  /** The value of the first member named `key`; repeated member names are outside the model (gjson may go on to a later one). */
  function FieldValue(fields: seq<(string, Json)>, key: string): (r: Option<Json>)
    ensures r.Some? ==>
      exists j :: 0 <= j < |fields| && fields[j] == (key, r.value) && forall i :: 0 <= i < j ==> fields[i].0 != key
    ensures r.None? ==> forall j :: 0 <= j < |fields| ==> fields[j].0 != key
  {
    if fields == [] then None
    else if fields[0].0 == key then Some(fields[0].1)
    else
      var r := FieldValue(fields[1..], key);
      if r.Some? then
        var j :| 0 <= j < |fields[1..]| && fields[1..][j] == (key, r.value)
          && forall i :: 0 <= i < j ==> fields[1..][i].0 != key;
        assert fields[j + 1] == (key, r.value);
        assert forall i :: 0 <= i < j + 1 ==> fields[i].0 != key by {
          forall i | 0 <= i < j + 1
            ensures fields[i].0 != key
          {
            if i > 0 {
              assert fields[1..][i - 1] == fields[i];
            }
          }
        }
        r
      else
        r
  }

  predicate IsDigit(c: char)
  {
    '0' <= c <= '9'
  }

  predicate AllDigits(s: string)
  {
    forall i :: 0 <= i < |s| ==> IsDigit(s[i])
  }

  /** Ten to the power `k`. */
  function Pow10(k: nat): (p: nat)
    ensures p >= 1
  {
    if k == 0 then 1 else 10 * Pow10(k - 1)
  }

  /** The number a string of decimal digits denotes; it has fewer digits than `s` when `s` has leading zeros. */
  function DecimalValue(s: string): (n: nat)
    requires AllDigits(s)
    ensures |s| == 1 ==> n == s[0] as int - '0' as int
    ensures n < Pow10(|s|)
  {
    if s == [] then 0
    else 10 * DecimalValue(s[..|s| - 1]) + (s[|s| - 1] as int - '0' as int)
  }

  /** A path segment read as an array index: a non-empty run of decimal digits. */
  function ParseIndex(segment: string): (r: Option<nat>)
    ensures r.Some? <==> segment != [] && AllDigits(segment)
    ensures r.Some? ==> r.value == DecimalValue(segment)
  {
    if segment != [] && AllDigits(segment) then Some(DecimalValue(segment)) else None
  }

  /** The segments of a path: the pieces between its dots (no escape syntax). */
  function Split(path: string): (segments: seq<string>)
    ensures |segments| >= 1
    decreases |path|
  {
    var i := LastIndex(path, '.');
    if i < 0 then [path] else Split(path[..i]) + [path[i + 1..]]
  }

  /** The inverse of Split: the segments joined back with dots. */
  function JoinSegments(segments: seq<string>): string
    requires |segments| >= 1
  {
    if |segments| == 1 then segments[0]
    else JoinSegments(segments[..|segments| - 1]) + "." + segments[|segments| - 1]
  }

  /** Splitting a path and joining the segments gives back the path, and no segment holds a dot. */
  lemma {:induction false} SplitJoin(path: string)
    ensures JoinSegments(Split(path)) == path
    ensures forall j :: 0 <= j < |Split(path)| ==> '.' !in Split(path)[j]
    decreases |path|
  {
    var i := LastIndex(path, '.');
    if i >= 0 {
      SplitJoin(path[..i]);
      var front := Split(path[..i]);
      assert Split(path) == front + [path[i + 1..]];
      assert Split(path)[..|Split(path)| - 1] == front;
      assert path == path[..i] + "." + path[i + 1..];
    }
  }

  /** One step down: a member of an object, or an element of an array. */
  function Child(v: Json, segment: string): (r: Option<Json>)
    ensures r.Some? ==> v.IsContainer()
  {
    match v
    case Obj(fields) => FieldValue(fields, segment)
    case Arr(items) =>
      (match ParseIndex(segment)
       case Some(i) => if i < |items| then Some(items[i]) else None
       case None => None)
    case _ => None
  }

  /** Follows the segments from `v`, failing as soon as one of them does not resolve. */
  function Walk(v: Json, segments: seq<string>): Option<Json>
    decreases |segments|
  {
    if segments == [] then Some(v)
    else
      match Child(v, segments[0])
      case None => None
      case Some(c) => Walk(c, segments[1..])
  }

  /** gjson.Get restricted to plain field and index paths: `Some` exactly when the result exists. */
  function Lookup(doc: Json, path: string): (r: Option<Json>)
    ensures r.Some? ==> doc.IsContainer()
  {
    var segments := Split(path);
    assert Walk(doc, segments).Some? ==> Child(doc, segments[0]).Some?;
    Walk(doc, segments)
  }

  /** Walking one more segment is a walk followed by one step down. */
  lemma {:induction false} WalkSnoc(v: Json, segments: seq<string>, last: string)
    ensures Walk(v, segments + [last]) ==
      match Walk(v, segments)
      case None => None
      case Some(c) => Child(c, last)
    decreases |segments|
  {
    if segments != [] {
      assert (segments + [last])[0] == segments[0];
      assert (segments + [last])[1..] == segments[1..] + [last];
      match Child(v, segments[0])
      case None =>
      case Some(c) => WalkSnoc(c, segments[1..], last);
    }
  }

  /** A path extended by one dot-free segment resolves to that child of what the path resolves to. */
  lemma LookupExtend(doc: Json, base: string, key: string)
    requires '.' !in key
    ensures Lookup(doc, base + "." + key) ==
      match Lookup(doc, base)
      case None => None
      case Some(v) => Child(v, key)
  {
    var path := base + "." + key;
    var i := LastIndex(path, '.');
    assert path[|base|] == '.';
    assert path[|base| + 1..] == key;
    assert i == |base|;
    assert path[..i] == base;
    assert Split(path) == Split(base) + [key];
    WalkSnoc(doc, Split(base), key);
  }

  /** A path without a dot names one child of the document. */
  lemma LookupSingle(doc: Json, key: string)
    requires '.' !in key
    ensures Lookup(doc, key) == Child(doc, key)
  {
    assert Split(key) == [key];
    assert [key][1..] == [];
    if Child(doc, key).Some? {
      assert Walk(doc, [key]) == Walk(Child(doc, key).value, []);
    }
  }

  /** Where an object repeats a member name, a path naming it reaches the first member with that name. */
  lemma FirstMemberWins(fields: seq<(string, Json)>, key: string, j: nat)
    requires '.' !in key && j < |fields| && fields[j].0 == key
    requires forall i :: 0 <= i < j ==> fields[i].0 != key
    ensures Lookup(Obj(fields), key) == Some(fields[j].1)
  {
    LookupSingle(Obj(fields), key);
  }
}
