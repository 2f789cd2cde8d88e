/**
 * Autocomplete for a partially typed path (internal/autocomplete/suggester.go):
 * split off the token being typed, list the keys or indices under the rest,
 * keep those that start with the token and put the rest of the path back in
 * front of them.
 */
module Autocomplete {
  import opened Wrappers
  import opened Strings
  import opened JsonPath

  /**
   * Splits a typed path at its last dot into the base path and the token
   * still being typed. Dots are not escape-aware: any dot splits.
   */
  function ParsePathForAutocomplete(path: string): (r: (string, string))
    ensures '.' !in path ==> r == ("", path)
    ensures '.' in path ==> r.0 + "." + r.1 == path && '.' !in r.1
    ensures path != [] && path[|path| - 1] == '.' ==> r == (path[..|path| - 1], "")
  {
    var lastDot := LastIndex(path, '.');
    if lastDot == -1 then ("", path)
    else if lastDot == |path| - 1 then (path[..lastDot], "")
    else
      assert path == path[..lastDot] + "." + path[lastDot + 1..];
      (path[..lastDot], path[lastDot + 1..])
  }

  /** Go's rune(n): `n` truncated to a signed 32-bit integer. */
  function ToRune(n: int): (r: int)
    ensures -0x8000_0000 <= r < 0x8000_0000
    ensures -0x8000_0000 <= n < 0x8000_0000 ==> r == n
    ensures (r - n) % 0x1_0000_0000 == 0
  {
    (n + 0x8000_0000) % 0x1_0000_0000 - 0x8000_0000
  }

  /** Go's string(r): the one character with code point `r`, or U+FFFD when `r` is not a Unicode scalar value. */
  function RuneString(r: int): (s: string)
    ensures |s| == 1
    ensures (0 <= r < 0xD800 || 0xE000 <= r < 0x11_0000) ==> s[0] as int == r
    ensures !(0 <= r < 0xD800 || 0xE000 <= r < 0x11_0000) ==> s[0] as int == 0xFFFD
  {
    if 0 <= r < 0xD800 || 0xE000 <= r < 0x11_0000 then [r as char] else [0xFFFD as char]
  }

  /** The suggestion offered for array position `i`: the character with code '0' + i. */
  function IndexKey(i: nat): string
  {
    RuneString(ToRune('0' as int + i))
  }

  /** The candidates under a node: an object's member names in document order, one index key per array element, nothing under a scalar. */
  function KeysAt(v: Json): seq<string>
  {
    match v
    case Obj(fields) => seq(|fields|, j requires 0 <= j < |fields| => fields[j].0)
    case Arr(items) => seq(|items|, j requires 0 <= j < |items| => IndexKey(j))
    case _ => []
  }

  /** The keys that start with `prefix`, in their original order. */
  function Filter(keys: seq<string>, prefix: string): seq<string>
  {
    if keys == [] then []
    else
      var last := keys[|keys| - 1];
      Filter(keys[..|keys| - 1], prefix) + (if HasPrefix(last, prefix) then [last] else [])
  }

  /** The full path offered for `key` under `base`: no separator when the base is empty. */
  function Join(base: string, key: string): string
  {
    if base == "" then key else base + "." + key
  }

  /** The node the candidates come from: the whole document for an empty base. */
  function BaseNode(doc: Json, base: string): Option<Json>
  {
    if base == "" then Some(doc) else Lookup(doc, base)
  }

  /** What the suggester offers for a typed path. */
  function Suggestions(doc: Json, path: string): seq<string>
  {
    var (base, incomplete) := ParsePathForAutocomplete(path);
    match BaseNode(doc, base)
    case None => []
    case Some(v) =>
      var survivors := Filter(KeysAt(v), incomplete);
      seq(|survivors|, j requires 0 <= j < |survivors| => Join(base, survivors[j]))
  }

  /** Lists the candidates under a node, the way extractKeys appends them one by one. */
  method ExtractKeys(result: Json) returns (keys: seq<string>)
    ensures keys == KeysAt(result)
  {
    keys := [];
    if result.Obj? {
      var fields := result.fields;
      for j := 0 to |fields|
        invariant |keys| == j
        invariant forall k :: 0 <= k < j ==> keys[k] == fields[k].0
      {
        keys := keys + [fields[j].0];
      }
    } else if result.Arr? {
      for i := 0 to |result.items|
        invariant |keys| == i
        invariant forall k :: 0 <= k < i ==> keys[k] == IndexKey(k)
      {
        keys := keys + [IndexKey(i)];
      }
    }
  }

  /** getTopLevelKeys: the candidates under the whole document. */
  method GetTopLevelKeys(doc: Json) returns (keys: seq<string>)
    ensures keys == KeysAt(doc)
  {
    keys := ExtractKeys(doc);
  }

  /** Keeps the keys that start with `prefix`; an empty prefix returns the list itself. */
  method FilterByPrefix(keys: seq<string>, prefix: string) returns (filtered: seq<string>)
    ensures prefix == "" ==> filtered == keys
    ensures filtered == Filter(keys, prefix)
  {
    if prefix == "" {
      FilterEmptyPrefix(keys);
      return keys;
    }
    filtered := [];
    for i := 0 to |keys|
      invariant filtered == Filter(keys[..i], prefix)
    {
      assert keys[..i + 1][..i] == keys[..i];
      if HasPrefix(keys[i], prefix) {
        filtered := filtered + [keys[i]];
      }
    }
    assert keys[..|keys|] == keys;
  }

  /** GetSuggestions: the full paths the user can pick for what has been typed. */
  method GetSuggestions(doc: Json, currentPath: string) returns (suggestions: seq<string>)
    ensures currentPath == "" ==> suggestions == KeysAt(doc)
    ensures suggestions == Suggestions(doc, currentPath)
  {
    if currentPath == "" {
      suggestions := GetTopLevelKeys(doc);
      EmptyPathSuggestsTopLevelKeys(doc);
      return;
    }
    var split := ParsePathForAutocomplete(currentPath);
    var basePath, incomplete := split.0, split.1;
    var result := if basePath == "" then Some(doc) else Lookup(doc, basePath);
    assert result == BaseNode(doc, basePath);
    if result.None? {
      assert Suggestions(doc, currentPath) == [];
      return [];
    }
    var keys := ExtractKeys(result.value);
    var survivors := FilterByPrefix(keys, incomplete);
    suggestions := PrefixWithBase(basePath, survivors);
  }

  /** The loop at the end of GetSuggestions: puts the base path (and a dot, unless it is empty) in front of each key. */
  method PrefixWithBase(basePath: string, keys: seq<string>) returns (fullSuggestions: seq<string>)
    ensures fullSuggestions == seq(|keys|, j requires 0 <= j < |keys| => Join(basePath, keys[j]))
  {
    fullSuggestions := [];
    for j := 0 to |keys|
      invariant |fullSuggestions| == j
      invariant forall k :: 0 <= k < j ==> fullSuggestions[k] == Join(basePath, keys[k])
    {
      if basePath == "" {
        fullSuggestions := fullSuggestions + [keys[j]];
      } else {
        fullSuggestions := fullSuggestions + [basePath + "." + keys[j]];
      }
    }
  }

  // Properties of the filter

  /** Every string starts with the empty prefix, so filtering by it keeps everything. */
  lemma {:induction false} FilterEmptyPrefix(keys: seq<string>)
    ensures Filter(keys, "") == keys
  {
    if keys != [] {
      FilterEmptyPrefix(keys[..|keys| - 1]);
      assert keys == keys[..|keys| - 1] + [keys[|keys| - 1]];
    }
  }

  /** A key survives exactly when it is one of the keys and starts with the prefix. */
  lemma {:induction false} FilterMembership(keys: seq<string>, prefix: string, key: string)
    ensures key in Filter(keys, prefix) <==> key in keys && HasPrefix(key, prefix)
  {
    if keys != [] {
      FilterMembership(keys[..|keys| - 1], prefix, key);
      assert keys == keys[..|keys| - 1] + [keys[|keys| - 1]];
    }
  }

  /** The positions of the keys that start with the prefix, in increasing order. */
  function SurvivorPositions(keys: seq<string>, prefix: string): seq<nat>
  {
    if keys == [] then []
    else
      var n := |keys| - 1;
      SurvivorPositions(keys[..n], prefix) + (if HasPrefix(keys[n], prefix) then [n] else [])
  }

  /**
   * The filter keeps order: its output is the keys at an increasing run of
   * positions, and those positions are exactly the ones whose key starts
   * with the prefix.
   */
  lemma {:induction false} FilterIsOrderedSelection(keys: seq<string>, prefix: string)
    ensures var survivors, pos := Filter(keys, prefix), SurvivorPositions(keys, prefix);
      && |pos| == |survivors| <= |keys|
      && (forall j :: 0 <= j < |pos| ==> pos[j] < |keys| && survivors[j] == keys[pos[j]])
      && (forall i, j :: 0 <= i < j < |pos| ==> pos[i] < pos[j])
      && (forall p :: 0 <= p < |keys| ==> (p in pos <==> HasPrefix(keys[p], prefix)))
  {
    if keys != [] {
      var n := |keys| - 1;
      FilterIsOrderedSelection(keys[..n], prefix);
      var pos := SurvivorPositions(keys[..n], prefix);
      forall p | 0 <= p < n
        ensures keys[..n][p] == keys[p]
      {
      }
      forall j | 0 <= j < |pos|
        ensures pos[j] < n
      {
      }
    }
  }

  // Properties of the index keys

  /** Below ten, the index key is the decimal digit of the position, which the lookup reads back as that position. */
  lemma IndexKeyBelowTen(i: nat)
    requires i < 10
    ensures |IndexKey(i)| == 1 && IndexKey(i)[0] as int == '0' as int + i
    ensures ParseIndex(IndexKey(i)) == Some(i)
  {
    var key := IndexKey(i);
    assert key[..0] == [];
    assert DecimalValue(key) == 10 * DecimalValue([]) + i;
  }

  /**
   * From ten on the index key is no longer a decimal: position 10 is offered
   * as ":", and no position from 10 until the rune conversion wraps round is
   * offered as anything an array lookup resolves.
   */
  lemma IndexKeyNotDecimal(items: seq<Json>, i: nat)
    requires 10 <= i < 0x1_0000_0000 - 48
    ensures i == 10 ==> IndexKey(i) == ":"
    ensures ParseIndex(IndexKey(i)).None?
    ensures Child(Arr(items), IndexKey(i)).None?
  {
    assert !IsDigit(IndexKey(i)[0]);
  }

  // Properties of the suggestions

  /** The early return for an empty path gives what the general procedure gives: every top-level key, in order. */
  lemma EmptyPathSuggestsTopLevelKeys(doc: Json)
    ensures Suggestions(doc, "") == KeysAt(doc)
  {
    FilterEmptyPrefix(KeysAt(doc));
  }

  /** Nothing is suggested under a base path that does not resolve or that names a scalar. */
  lemma NoSuggestionsUnderScalarOrMissingBase(doc: Json, path: string)
    requires var base := ParsePathForAutocomplete(path).0;
      BaseNode(doc, base).None? || !BaseNode(doc, base).value.IsContainer()
    ensures Suggestions(doc, path) == []
  {
    var (base, incomplete) := ParsePathForAutocomplete(path);
    if BaseNode(doc, base).Some? {
      assert KeysAt(BaseNode(doc, base).value) == [];
      assert Filter([], incomplete) == [];
    }
  }

  /**
   * Each suggestion is the base path joined to a key found under the base
   * that starts with the typed token; there are never more suggestions than
   * keys, and they come in key order.
   */
  lemma SuggestionShape(doc: Json, path: string)
    ensures var (base, incomplete) := ParsePathForAutocomplete(path);
      match BaseNode(doc, base)
      case None => Suggestions(doc, path) == []
      case Some(v) =>
        var keys, pos := KeysAt(v), SurvivorPositions(KeysAt(v), incomplete);
        && |Suggestions(doc, path)| == |pos| <= |keys|
        && (forall j :: 0 <= j < |pos| ==>
              pos[j] < |keys| && Suggestions(doc, path)[j] == Join(base, keys[pos[j]])
              && HasPrefix(keys[pos[j]], incomplete))
        && (forall i, j :: 0 <= i < j < |pos| ==> pos[i] < pos[j])
  {
    var (base, incomplete) := ParsePathForAutocomplete(path);
    if BaseNode(doc, base).Some? {
      var keys := KeysAt(BaseNode(doc, base).value);
      FilterIsOrderedSelection(keys, incomplete);
      var pos := SurvivorPositions(keys, incomplete);
      forall j | 0 <= j < |pos|
        ensures HasPrefix(keys[pos[j]], incomplete)
      {
        assert pos[j] in pos;
      }
    }
  }

  /**
   * When the typed path has a non-empty base, or no dot at all, every
   * suggestion extends the typed path literally.
   */
  lemma SuggestionsExtendTypedPath(doc: Json, path: string)
    requires ParsePathForAutocomplete(path).0 != "" || '.' !in path
    ensures forall s :: s in Suggestions(doc, path) ==> HasPrefix(s, path)
  {
    var (base, incomplete) := ParsePathForAutocomplete(path);
    assert path == Join(base, incomplete);
    forall s | s in Suggestions(doc, path)
      ensures HasPrefix(s, path)
    {
      var v := BaseNode(doc, base).value;
      var survivors := Filter(KeysAt(v), incomplete);
      var j :| 0 <= j < |survivors| && s == Join(base, survivors[j]);
      FilterMembership(KeysAt(v), incomplete, survivors[j]);
      JoinKeepsPrefix(base, incomplete, survivors[j]);
    }
  }

  /** Joining a base path to a key that extends the typed token extends the base joined to the token. */
  lemma JoinKeepsPrefix(base: string, incomplete: string, key: string)
    requires HasPrefix(key, incomplete)
    ensures HasPrefix(Join(base, key), Join(base, incomplete))
  {
    if base != "" {
      assert (base + "." + key)[..|base| + 1 + |incomplete|] == base + "." + key[..|incomplete|];
    }
  }

  /** A key listed under an object, or under an array of at most ten elements, leads to a child of that node. */
  lemma KeyLeadsToChild(v: Json, key: string)
    requires key in KeysAt(v)
    requires (v.Obj? && '.' !in key) || (v.Arr? && |v.items| <= 10)
    ensures '.' !in key && Child(v, key).Some?
  {
    var keys := KeysAt(v);
    var p :| 0 <= p < |keys| && keys[p] == key;
    if v.Arr? {
      IndexKeyBelowTen(p);
    } else {
      assert v.fields[p].0 == key;
    }
  }

  /** A dot-free key joined to a base path resolves to the child of the base node. */
  lemma JoinedPathResolves(doc: Json, base: string, key: string)
    requires BaseNode(doc, base).Some? && '.' !in key
    ensures Lookup(doc, Join(base, key)) == Child(BaseNode(doc, base).value, key)
  {
    if base == "" {
      LookupSingle(doc, key);
    } else {
      LookupExtend(doc, base, key);
    }
  }

  /**
   * Under an object none of whose member names holds a dot, or under an
   * array of at most ten elements, every suggestion is itself a path that
   * resolves.
   */
  lemma SuggestionsResolve(doc: Json, path: string, v: Json)
    requires BaseNode(doc, ParsePathForAutocomplete(path).0) == Some(v)
    requires (v.Obj? && forall k :: 0 <= k < |v.fields| ==> '.' !in v.fields[k].0) || (v.Arr? && |v.items| <= 10)
    ensures forall s :: s in Suggestions(doc, path) ==> Lookup(doc, s).Some?
  {
    var (base, incomplete) := ParsePathForAutocomplete(path);
    var survivors := Filter(KeysAt(v), incomplete);
    forall s | s in Suggestions(doc, path)
      ensures Lookup(doc, s).Some?
    {
      var j :| 0 <= j < |survivors| && s == Join(base, survivors[j]);
      var key := survivors[j];
      FilterMembership(KeysAt(v), incomplete, key);
      KeyLeadsToChild(v, key);
      JoinedPathResolves(doc, base, key);
    }
  }
}
