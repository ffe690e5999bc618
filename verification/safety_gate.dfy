/**
 * The request safety gate of `handle_request`: a parsed request is answered
 * 400 when it is absent or its path does not start with '/', 403 when the
 * path contains ".." anywhere, and 404 otherwise.
 *
 * A C string is modelled as the sequence of characters before its NUL
 * terminator, so reading `path[0]` of an empty path reads the terminator.
 */
module SafetyGate {
  import opened Common

  /** The three canned answers the gate can choose between. */
  datatype Outcome = BadRequest | Forbidden | NotFound

  /** `needle` occurs in `hay` starting at index `i`. */
  predicate OccursAt(hay: string, needle: string, i: int)
  {
    0 <= i && i + |needle| <= |hay| && hay[i..i + |needle|] == needle
  }

  /**
   * Searches for the first occurrence of `needle` at an index >= `from`:
   * the recursive core of `strstr`.
   */
  function SearchFrom(hay: string, needle: string, from: nat): (r: Option<nat>)
    ensures r.Some? ==> from <= r.value && OccursAt(hay, needle, r.value)
    ensures r.Some? ==> forall j :: from <= j < r.value ==> !OccursAt(hay, needle, j)
    ensures r.None? ==> forall j :: from <= j ==> !OccursAt(hay, needle, j)
    decreases |hay| - from
  {
    if from + |needle| > |hay| then None
    else if hay[from..from + |needle|] == needle then Some(from)
    else SearchFrom(hay, needle, from + 1)
  }

  /**
   * `strstr(hay, needle)`: the offset of the first occurrence of `needle`
   * in `hay`, or None where C returns NULL.
   */
  function Strstr(hay: string, needle: string): (r: Option<nat>)
    ensures r.Some? ==> OccursAt(hay, needle, r.value)
    ensures r.Some? ==> forall j :: 0 <= j < r.value ==> !OccursAt(hay, needle, j)
    ensures r.None? <==> forall j :: !OccursAt(hay, needle, j)
  {
    SearchFrom(hay, needle, 0)
  }

  /** The character C reads at `path[0]`: the NUL terminator for "". */
  function FirstChar(path: string): char
  {
    if |path| == 0 then '\0' else path[0]
  }

  /** The path is non-empty and starts with '/'. */
  predicate Rooted(path: string)
  {
    |path| > 0 && path[0] == '/'
  }

  /** The two-character sequence ".." occurs somewhere in the path. */
  ghost predicate HasDotDot(path: string)
  {
    exists i :: OccursAt(path, "..", i)
  }

  /**
   * The gate's policy as a relation between the parsed path (None when the
   * request could not be parsed) and the answer it deserves.
   */
  ghost predicate Policy(path: Option<string>, o: Outcome)
  {
    match o
    case BadRequest => path.None? || !Rooted(path.value)
    case Forbidden => path.Some? && Rooted(path.value) && HasDotDot(path.value)
    case NotFound => path.Some? && Rooted(path.value) && !HasDotDot(path.value)
  }

  /** The gate, in the order the checks are made in `handle_request`. */
  function Classify(path: Option<string>): (o: Outcome)
    ensures Policy(path, o)
    ensures forall o' :: Policy(path, o') <==> o' == o
  {
    if path.None? || FirstChar(path.value) != '/' then BadRequest
    else if Strstr(path.value, "..").Some? then Forbidden
    else NotFound
  }

  /** The '/' check comes first: a relative path is a bad request even when it contains "..". */
  lemma RootCheckPrecedesTraversalCheck(path: string)
    requires !Rooted(path)
    ensures Classify(Some(path)) == BadRequest
  {
  }

  /** A ".." anywhere after the leading '/' is forbidden, whatever surrounds it. */
  lemma TraversalForbiddenAnywhere(prefix: string, suffix: string)
    ensures Classify(Some("/" + prefix + ".." + suffix)) == Forbidden
  {
    var p := "/" + prefix + ".." + suffix;
    assert p[|prefix| + 1..|prefix| + 3] == "..";
    assert OccursAt(p, "..", |prefix| + 1);
  }

  /** "/.." is forbidden. */
  lemma BareTraversalForbidden()
    ensures Classify(Some("/..")) == Forbidden
  {
  }

  /** "/a/../b" and "/x..y" are forbidden: the gate is textual, not a path-segment check. */
  lemma InnerTraversalForbidden()
    ensures Classify(Some("/a/../b")) == Forbidden
    ensures Classify(Some("/x..y")) == Forbidden
  {
    assert OccursAt("/a/../b", "..", 3);
    assert OccursAt("/x..y", "..", 2);
  }

  /** A rooted path in which no '.' is followed by another '.' is answered 404. */
  lemma NoAdjacentDotsNotFound(path: string)
    requires Rooted(path)
    requires forall i :: 0 <= i < |path| - 1 ==> !(path[i] == '.' && path[i + 1] == '.')
    ensures Classify(Some(path)) == NotFound
  {
    forall j
      ensures !OccursAt(path, "..", j)
    {
      if 0 <= j && j + 2 <= |path| {
        assert path[j..j + 2][0] == path[j];
        assert path[j..j + 2][1] == path[j + 1];
      }
    }
  }

  /** "/index.html" has no ".." and is answered 404. */
  lemma PlainPathNotFound()
    ensures Classify(Some("/index.html")) == NotFound
  {
    NoAdjacentDotsNotFound("/index.html");
  }
}
