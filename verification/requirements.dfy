/** `get_requirements` of setup.py: the install requirements are the
    non-empty stripped lines of requirements.txt, except the editable-install
    line `-e .`. */
module Requirements {
  import opened Errors

  /** Python's `str.isspace`, the set `str.strip()` removes. */
  predicate IsSpace(c: char) {
    var n := c as int;
    || (0x09 <= n <= 0x0D)      // \t \n vertical tab, form feed, \r
    || (0x1C <= n <= 0x1F)      // file, group, record and unit separators
    || n == 0x20 || n == 0x85 || n == 0xA0 || n == 0x1680
    || (0x2000 <= n <= 0x200A)
    || n == 0x2028 || n == 0x2029 || n == 0x202F || n == 0x205F || n == 0x3000
  }

  predicate AllSpace(s: string) {
    forall i :: 0 <= i < |s| ==> IsSpace(s[i])
  }

  /** A string with no whitespace at either end. */
  predicate Trimmed(s: string) {
    s == [] || (!IsSpace(s[0]) && !IsSpace(s[|s| - 1]))
  }

  function StripLeading(s: string): (r: string)
    ensures |r| <= |s| && r == s[|s| - |r|..]
    ensures AllSpace(s[..|s| - |r|])
    ensures r == [] || !IsSpace(r[0])
  {
    if s != [] && IsSpace(s[0]) then
      var r := StripLeading(s[1..]);
      assert s[..|s| - |r|] == [s[0]] + s[1..][..|s[1..]| - |r|];
      r
    else s
  }

  function StripTrailing(s: string): (r: string)
    ensures |r| <= |s| && r == s[..|r|]
    ensures AllSpace(s[|r|..])
    ensures r == [] || !IsSpace(r[|r| - 1])
  {
    if s != [] && IsSpace(s[|s| - 1]) then
      var r := StripTrailing(s[..|s| - 1]);
      assert s[|r|..] == s[..|s| - 1][|r|..] + [s[|s| - 1]];
      r
    else s
  }

  /** `r` is an infix of `s` whose cut-off ends are all whitespace. */
  ghost predicate StrippedFrom(s: string, r: string) {
    exists i, j :: 0 <= i <= j <= |s| && r == s[i..j] && AllSpace(s[..i]) && AllSpace(s[j..])
  }

  /** Stripping the front, then the back, cuts whitespace-only ends off an infix. */
  lemma StripBothEnds(s: string, i: nat, left: string, r: string)
    requires i <= |s| && left == s[i..] && AllSpace(s[..i])
    requires |r| <= |left| && r == left[..|r|] && AllSpace(left[|r|..])
    ensures StrippedFrom(s, r)
  {
    var j := i + |r|;
    assert r == s[i..j];
    assert s[j..] == left[|r|..];
    StrippedFromWitness(s, r, i, j);
  }

  lemma StrippedFromWitness(s: string, r: string, i: int, j: int)
    requires 0 <= i <= j <= |s| && r == s[i..j] && AllSpace(s[..i]) && AllSpace(s[j..])
    ensures StrippedFrom(s, r)
  {
  }

  /** The back is stripped after the front, so neither end is whitespace. */
  lemma StripBothEndsTrimmed(left: string, r: string)
    requires left == [] || !IsSpace(left[0])
    requires r == StripTrailing(left)
    ensures Trimmed(r)
  {
    if r != [] {
      assert r[0] == left[0];
    }
  }

  /** `str.strip()`: the trimmed infix of `s` whose cut-off ends are all
      whitespace. */
  function Strip(s: string): (r: string)
    ensures Trimmed(r)
    ensures |r| <= |s|
  {
    var left := StripLeading(s);
    var r := StripTrailing(left);
    StripBothEndsTrimmed(left, r);
    r
  }

  /** What `strip` keeps is an infix of its input cut at whitespace. */
  lemma StripIsInfix(s: string)
    ensures StrippedFrom(s, Strip(s))
  {
    var left := StripLeading(s);
    StripBothEnds(s, |s| - |left|, left, StripTrailing(left));
  }

  /** A trimmed string is left alone by `strip`. */
  lemma StripTrimmed(s: string)
    requires Trimmed(s)
    ensures Strip(s) == s
  {
  }

  lemma StripIdempotent(s: string)
    ensures Strip(Strip(s)) == Strip(s)
  {
    StripTrimmed(Strip(s));
  }

  /** `if requirement and requirement != '-e .'`. */
  predicate Keep(requirement: string) {
    requirement != [] && requirement != "-e ."
  }

  /** The loop over `file.readlines()`. */
  function FilterLines(lines: seq<string>): (r: seq<string>)
    ensures |r| <= |lines|
    ensures forall k :: 0 <= k < |r| ==> Keep(r[k]) && Trimmed(r[k])
  {
    if lines == [] then []
    else
      var head := Strip(lines[0]);
      (if Keep(head) then [head] else []) + FilterLines(lines[1..])
  }

  /** What `open('requirements.txt')` followed by `readlines()` gives: the
      file's lines, a missing file, or any other failure to open or decode it. */
  datatype FileRead = Lines(lines: seq<string>) | Missing | Unreadable(error: Error)

  /** `get_requirements()`: only `FileNotFoundError` is caught, and then the
      list is empty; any other failure to read escapes to the caller. */
  function GetRequirements(file: FileRead): (r: Result<seq<string>>)
    ensures r.Ok? <==> !file.Unreadable?
    ensures file.Missing? ==> r == Ok([])
    ensures file.Unreadable? ==> r == Err(file.error)
    ensures file.Lines? ==> r == Ok(FilterLines(file.lines))
    ensures file.Lines? ==> r.Ok? && (forall x :: x in r.value <==> Keep(x) && exists l :: l in file.lines && Strip(l) == x)
  {
    match file
    case Missing => Ok([])
    case Unreadable(e) => Err(e)
    case Lines(lines) =>
      assert forall x :: x in FilterLines(lines) <==> Keep(x) && exists l :: l in lines && Strip(l) == x by {
        forall x
          ensures x in FilterLines(lines) <==> Keep(x) && exists l :: l in lines && Strip(l) == x
        {
          FilterLinesMembership(lines, x);
        }
      }
      Ok(FilterLines(lines))
  }

  lemma ConcatAssociative<T>(x: seq<T>, y: seq<T>, z: seq<T>)
    ensures x + (y + z) == (x + y) + z
  {
  }

  lemma SplitFirst<T>(a: seq<T>, b: seq<T>)
    requires a != []
    ensures (a + b)[0] == a[0] && (a + b)[1..] == a[1..] + b
  {
  }

  /** Filtering distributes over concatenation: each line is judged on its
      own and kept lines stay in their original order. */
  lemma {:induction false} FilterLinesAppend(a: seq<string>, b: seq<string>)
    ensures FilterLines(a + b) == FilterLines(a) + FilterLines(b)
  {
    if a == [] {
      assert a + b == b;
    } else {
      var head := Strip(a[0]);
      var kept := if Keep(head) then [head] else [];
      SplitFirst(a, b);
      FilterLinesAppend(a[1..], b);
      assert FilterLines(a + b) == kept + FilterLines(a[1..] + b);
      ConcatAssociative(kept, FilterLines(a[1..]), FilterLines(b));
    }
  }

  /** An entry is in the output exactly when some input line strips to it and
      it is neither empty nor `-e .`. */
  lemma {:induction false} FilterLinesMembership(lines: seq<string>, x: string)
    ensures x in FilterLines(lines) <==> Keep(x) && exists l :: l in lines && Strip(l) == x
  {
    if lines != [] {
      FilterLinesMembership(lines[1..], x);
      assert forall l :: l in lines <==> l == lines[0] || l in lines[1..];
    }
  }

  /** Running the filter over its own output changes nothing. */
  lemma {:induction false} FilterLinesIdempotent(lines: seq<string>)
    ensures FilterLines(FilterLines(lines)) == FilterLines(lines)
  {
    if lines != [] {
      var head := Strip(lines[0]);
      var rest := FilterLines(lines[1..]);
      FilterLinesIdempotent(lines[1..]);
      if Keep(head) {
        StripIdempotent(lines[0]);
        FilterLinesAppend([head], rest);
        assert FilterLines([head]) == [head] by {
          assert [head][1..] == [];
        }
      } else {
        assert FilterLines(lines) == rest;
      }
    }
  }
}
