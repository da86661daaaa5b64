/** Znode paths as strings: building them from names, and `split` of src/ServiceDiscovery.cc, which
    takes them apart again. */
module Paths {
  const SLASH: char := '/'

  /** A name that can be one component of a path. */
  predicate Name(s: string) { s != "" && SLASH !in s }

  function PathOf(parts: seq<string>): string {
    if parts == [] then "" else "/" + parts[0] + PathOf(parts[1..])
  }

  /** The non-empty pieces of s between delimiters, when `item` has been read of the first piece. */
  function Pieces(s: string, delim: char, item: string): seq<string>
    decreases |s|
  {
    if s == "" then (if item == "" then [] else [item])
    else if s[0] == delim then (if item == "" then [] else [item]) + Pieces(s[1..], delim, "")
    else Pieces(s[1..], delim, item + [s[0]])
  }

  /** `split`: reads up to each delimiter and keeps what is not empty. */
  method Split(s: string, delim: char) returns (elems: seq<string>)
    ensures elems == Pieces(s, delim, "")
  {
    elems := [];
    var item := "";
    var i := 0;
    while i < |s|
      invariant 0 <= i <= |s|
      invariant elems + Pieces(s[i..], delim, item) == Pieces(s, delim, "")
    {
      assert s[i..][1..] == s[i + 1..];
      if s[i] == delim {
        if item != "" { elems := elems + [item]; }
        item := "";
      } else {
        item := item + [s[i]];
      }
      i := i + 1;
    }
    if item != "" { elems := elems + [item]; }
  }

  lemma {:induction false} PiecesRead(name: string, rest: string, delim: char, item: string)
    requires delim !in name
    ensures Pieces(name + rest, delim, item) == Pieces(rest, delim, item + name)
    decreases |name|
  {
    if name == "" {
      assert name + rest == rest && item + name == item;
    } else {
      assert (name + rest)[1..] == name[1..] + rest;
      PiecesRead(name[1..], rest, delim, item + [name[0]]);
      assert item + [name[0]] + name[1..] == item + name;
    }
  }

  /** What splitting means: a string without the delimiter is one piece unless it is empty, and at any
      delimiter the pieces are those before it and those behind it. */
  lemma PiecesWhole(s: string, delim: char)
    requires delim !in s
    ensures Pieces(s, delim, "") == if s == "" then [] else [s]
  {
    PiecesRead(s, "", delim, "");
    assert s + "" == s && "" + s == s;
  }

  lemma {:induction false} PiecesAt(a: string, b: string, delim: char, item: string)
    ensures Pieces(a + [delim] + b, delim, item) == Pieces(a, delim, item) + Pieces(b, delim, "")
    decreases |a|
  {
    var s := a + [delim] + b;
    if a == "" {
      assert s[0] == delim && s[1..] == b;
    } else {
      assert s[0] == a[0] && s[1..] == a[1..] + [delim] + b;
      if a[0] == delim { PiecesAt(a[1..], b, delim, ""); } else { PiecesAt(a[1..], b, delim, item + [a[0]]); }
    }
  }

  /** The first component ends where the next one starts. */
  lemma ReadFirst(name: string, rest: string)
    requires Name(name) && (rest == "" || rest[0] == SLASH)
    ensures Pieces("/" + name + rest, SLASH, "") == [name] + Pieces(rest, SLASH, "")
  {
    var s := "/" + name + rest;
    assert s[1..] == name + rest && s[0] == SLASH;
    PiecesRead(name, rest, SLASH, "");
    assert "" + name == name && [name] + [] == [name];
    assert Pieces(s, SLASH, "") == [] + Pieces(name + rest, SLASH, "");
  }

  /** Splitting a path gives back the names it was built from. */
  lemma {:induction false} SplitPath(parts: seq<string>)
    requires forall p :: p in parts ==> Name(p)
    ensures Pieces(PathOf(parts), SLASH, "") == parts
  {
    if parts != [] {
      hide Pieces;
      assert parts[0] in parts && Name(parts[0]);
      ReadFirst(parts[0], PathOf(parts[1..]));
      SplitPath(parts[1..]);
    }
  }

  /** So different lists of names make different paths. */
  lemma PathsDiffer(a: seq<string>, b: seq<string>)
    requires (forall p :: p in a ==> Name(p)) && (forall p :: p in b ==> Name(p))
    requires PathOf(a) == PathOf(b)
    ensures a == b
  {
    SplitPath(a);
    SplitPath(b);
  }

  /** Whatever string is split, the pieces are names. */
  lemma {:induction false} PiecesAreNames(s: string, item: string)
    requires SLASH !in item
    ensures forall p :: p in Pieces(s, SLASH, item) ==> Name(p)
    decreases |s|
  {
    if s != "" {
      if s[0] == SLASH { PiecesAreNames(s[1..], ""); } else { PiecesAreNames(s[1..], item + [s[0]]); }
    }
  }

  lemma PathSnoc(parts: seq<string>, name: string)
    ensures PathOf(parts + [name]) == PathOf(parts) + "/" + name
  {
    PathConcat(parts, [name]);
    assert [name][1..] == [];
    assert PathOf([name]) == "/" + name + "";
    assert PathOf(parts) + ("/" + name) == PathOf(parts) + "/" + name;
  }

  lemma {:induction false} PathConcat(a: seq<string>, b: seq<string>)
    ensures PathOf(a + b) == PathOf(a) + PathOf(b)
  {
    if a == [] {
      assert a + b == b;
    } else {
      assert (a + b)[1..] == a[1..] + b;
      PathConcat(a[1..], b);
    }
  }
}
