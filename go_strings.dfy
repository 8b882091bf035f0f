/// The `strings` functions the client uses: `Split`, `ReplaceAll` with a
/// one-character pattern, and `TrimSpace`.
module GoStrings {
  import opened Errors

  /** Go's `s[lo:hi]`: a run-time panic unless `0 <= lo <= hi <= len(s)`. */
  function Slice(s: string, lo: nat, hi: nat): (r: Result<string>)
    ensures r.Ok? <==> lo <= hi <= |s|
    ensures r.Ok? ==> r.value == s[lo..hi]
    ensures r.Err? ==> r.error == IndexOutOfRange
  {
    if lo <= hi <= |s| then Ok(s[lo..hi]) else Err(IndexOutOfRange)
  }

  /** Go's `s[lo:]`. */
  function From(s: string, lo: nat): (r: Result<string>)
    ensures r.Ok? <==> lo <= |s|
    ensures r.Ok? ==> r.value == s[lo..]
    ensures r.Err? ==> r.error == IndexOutOfRange
  {
    if lo <= |s| then Ok(s[lo..]) else Err(IndexOutOfRange)
  }

  /** Go's `string(s[i])`: the one-character string at `i`. */
  function CharAt(s: string, i: nat): (r: Result<string>)
    ensures r.Ok? <==> i < |s|
    ensures r.Ok? ==> r.value == [s[i]]
    ensures r.Err? ==> r.error == IndexOutOfRange
  {
    if i < |s| then Ok([s[i]]) else Err(IndexOutOfRange)
  }

  /** Go's `parts[i]` on the result of a split. */
  function Part(parts: seq<string>, i: nat): (r: Result<string>)
    ensures r.Ok? <==> i < |parts|
    ensures r.Ok? ==> r.value == parts[i]
    ensures r.Err? ==> r.error == IndexOutOfRange
  {
    if i < |parts| then Ok(parts[i]) else Err(IndexOutOfRange)
  }

  /** `strings.Split(s, sep)` for a one-character separator: the pieces
    * between separators, so `Split("", sep)` is `[""]`. */
  function Split(s: string, sep: char): (parts: seq<string>)
    ensures |parts| >= 1
  {
    if s == [] then [""]
    else
      var rest := Split(s[1..], sep);
      if s[0] == sep then [""] + rest else [[s[0]] + rest[0]] + rest[1..]
  }

  /** `strings.Join(parts, sep)`: the inverse of `Split`. */
  function Join(parts: seq<string>, sep: char): string
    requires |parts| >= 1
  {
    if |parts| == 1 then parts[0] else parts[0] + [sep] + Join(parts[1..], sep)
  }

  /** A join is its first piece, then the separator and the join of the
    * rest, if there is a rest. */
  lemma JoinCons(first: string, rest: seq<string>, sep: char)
    ensures Join([first] + rest, sep) == first + (if rest == [] then [] else [sep] + Join(rest, sep))
  {
    if rest != [] {
      assert ([first] + rest)[1..] == rest;
    }
  }

  /** `strings.ReplaceAll(s, pattern, replacement)` for a one-character `pattern`. */
  function ReplaceAll(s: string, pattern: char, replacement: string): string
  {
    if s == [] then [] else (if s[0] == pattern then replacement else [s[0]]) + ReplaceAll(s[1..], pattern, replacement)
  }

  /** The ASCII white space `unicode.IsSpace` accepts. */
  predicate IsSpace(c: char)
  {
    c == ' ' || c == '\t' || c == '\n' || c == '\r' || c == 11 as char || c == 12 as char
  }

  function TrimLeft(s: string): (r: string)
    ensures |r| <= |s| && r == s[|s| - |r|..]
    ensures r == [] || !IsSpace(r[0])
  {
    if s != [] && IsSpace(s[0]) then TrimLeft(s[1..]) else s
  }

  function TrimRight(s: string): (r: string)
    ensures |r| <= |s| && r == s[..|r|]
    ensures r == [] || !IsSpace(r[|r| - 1])
  {
    if s != [] && IsSpace(s[|s| - 1]) then TrimRight(s[..|s| - 1]) else s
  }

  /** `strings.TrimSpace`: white space removed from both ends. */
  function TrimSpace(s: string): string
  {
    TrimRight(TrimLeft(s))
  }

  // ---------------------------------------------------------------------

  lemma {:induction false} SplitNoSep(a: string, sep: char)
    requires sep !in a
    ensures Split(a, sep) == [a]
  {
    if a != [] {
      SplitNoSep(a[1..], sep);
      assert [a[0]] + a[1..] == a;
    }
  }

  lemma {:induction false} SplitFirst(a: string, sep: char, rest: string)
    requires sep !in a
    ensures Split(a + [sep] + rest, sep) == [a] + Split(rest, sep)
  {
    var s := a + [sep] + rest;
    if a == [] {
      assert s[1..] == rest;
    } else {
      assert s[1..] == a[1..] + [sep] + rest;
      SplitFirst(a[1..], sep, rest);
      assert [a[0]] + a[1..] == a;
    }
  }

  /** Splitting a join of separator-free pieces gives the pieces back. */
  lemma {:induction false} SplitJoin(parts: seq<string>, sep: char)
    requires |parts| >= 1
    requires forall i :: 0 <= i < |parts| ==> sep !in parts[i]
    ensures Split(Join(parts, sep), sep) == parts
  {
    if |parts| == 1 {
      SplitNoSep(parts[0], sep);
    } else {
      SplitJoin(parts[1..], sep);
      SplitFirst(parts[0], sep, Join(parts[1..], sep));
    }
  }

  lemma {:induction false} ReplaceAllAppend(a: string, b: string, pattern: char, replacement: string)
    ensures ReplaceAll(a + b, pattern, replacement) == ReplaceAll(a, pattern, replacement) + ReplaceAll(b, pattern, replacement)
  {
    if a == [] {
      assert a + b == b;
    } else {
      assert (a + b)[0] == a[0];
      assert (a + b)[1..] == a[1..] + b;
      ReplaceAllAppend(a[1..], b, pattern, replacement);
    }
  }

  lemma ReplaceAllOne(c: char, pattern: char, replacement: string)
    ensures ReplaceAll([c], pattern, replacement) == if c == pattern then replacement else [c]
  {
    assert [c][1..] == [];
  }

  lemma {:induction false} ReplaceAllAbsent(s: string, pattern: char, replacement: string)
    requires pattern !in s
    ensures ReplaceAll(s, pattern, replacement) == s
  {
    if s != [] {
      ReplaceAllAbsent(s[1..], pattern, replacement);
      assert [s[0]] + s[1..] == s;
    }
  }

  lemma TrimSpaceKeeps(s: string)
    requires s != [] && !IsSpace(s[0]) && !IsSpace(s[|s| - 1])
    ensures TrimSpace(s) == s
  {
  }
}
