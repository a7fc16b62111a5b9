/**
 * The few Ruby string operations the client relies on: bytes, `String#chomp`,
 * `String#gsub(c, "")` for a single character, and `"#{x}"` interpolation of a
 * value that may be nil.
 */
module Text {
  import opened Wrappers

  type Byte = x: int | 0 <= x < 256

  /** Text as it travels over HTTP and through the JSON library. */
  type Bytes = seq<Byte>

  const LF: Byte := 10
  const CR: Byte := 13

  /** True when `s` ends with a line terminator that `chomp` would remove. */
  predicate EndsWithLineBreak(s: Bytes) {
    |s| > 0 && (s[|s| - 1] == LF || s[|s| - 1] == CR)
  }

  /**
   * `String#chomp` with the default separator: removes one trailing "\r\n",
   * or else one trailing "\n" or "\r", and nothing more.
   */
  function Chomp(s: Bytes): (r: Bytes)
    ensures r <= s && |s| - 2 <= |r|
    ensures s[|r|..] == [] || s[|r|..] == [LF] || s[|r|..] == [CR] || s[|r|..] == [CR, LF]
    ensures !EndsWithLineBreak(s) ==> r == s
    ensures EndsWithLineBreak(s) ==> |r| < |s|
  {
    if |s| >= 2 && s[|s| - 2..] == [CR, LF] then s[..|s| - 2]
    else if EndsWithLineBreak(s) then s[..|s| - 1]
    else s
  }

  /**
   * Appending one line terminator and chomping gives back the original text,
   * provided the "\n" cannot pair with a "\r" already at the end.
   */
  lemma ChompRemovesAppendedLineBreak(t: Bytes, ending: Bytes)
    requires ending == [LF] || ending == [CR] || ending == [CR, LF]
    requires ending == [LF] ==> |t| == 0 || t[|t| - 1] != CR
    ensures Chomp(t + ending) == t
  {
    var s := t + ending;
    if ending == [LF] {
      assert s[|s| - 1] == LF;
      if |s| >= 2 {
        assert s[|s| - 2..] == [t[|t| - 1], LF];
      }
      assert s[..|s| - 1] == t;
    } else if ending == [CR] {
      assert s[|s| - 1] == CR;
      assert s[..|s| - 1] == t;
    } else {
      assert s[|s| - 2..] == [CR, LF];
      assert s[..|s| - 2] == t;
    }
  }

  /** The characters of `s` other than `c`, in their original order. */
  function Without(s: string, c: char): string
  {
    if s == [] then [] else (if s[0] == c then [] else [s[0]]) + Without(s[1..], c)
  }

  /** One step of the recursion, for a text given as its first character and the rest. */
  lemma WithoutCons(x: char, t: string, c: char)
    ensures Without([x] + t, c) == (if x == c then [] else [x]) + Without(t, c)
  {
    assert ([x] + t)[0] == x && ([x] + t)[1..] == t;
  }

  /** What deleting a character does to the text, proved once over the recursion. */
  lemma {:induction false} WithoutCounts(s: string, c: char)
    ensures c !in Without(s, c)
    ensures |Without(s, c)| <= |s|
    ensures c !in s ==> Without(s, c) == s
    ensures multiset(Without(s, c)) == multiset(s)[c := 0]
  {
    if s != [] {
      var x, t := s[0], s[1..];
      assert s == [x] + t;
      WithoutCons(x, t, c);
      WithoutCounts(t, c);
      assert multiset(s) == multiset([x]) + multiset(t);
    }
  }

  /** Concatenation regroups freely. */
  lemma AppendAssociates(p: string, q: string, r: string)
    ensures p + (q + r) == (p + q) + r
  {
  }

  /** Removing from a concatenation removes from each part in place. */
  lemma {:induction false} WithoutDistributes(a: string, b: string, c: char)
    ensures Without(a + b, c) == Without(a, c) + Without(b, c)
    decreases |a|
  {
    if a == [] {
      assert a + b == b;
    } else {
      var x, t := a[0], a[1..];
      assert a == [x] + t;
      assert a + b == [x] + (t + b);
      WithoutCons(x, t + b, c);
      WithoutCons(x, t, c);
      WithoutDistributes(t, b, c);
      AppendAssociates(if x == c then [] else [x], Without(t, c), Without(b, c));
    }
  }

  /** `String#gsub(c, "")`: every occurrence of `c` removed, the rest kept in order. */
  function DeleteAll(s: string, c: char): (r: string)
    ensures c !in r
    ensures |r| <= |s|
    ensures c !in s ==> r == s
    ensures multiset(r) == multiset(s)[c := 0]
  {
    WithoutCounts(s, c);
    Without(s, c)
  }

  /** Deleting from a concatenation deletes from each part in place: the kept characters keep their order. */
  lemma DeleteAllDistributes(a: string, b: string, c: char)
    ensures DeleteAll(a + b, c) == DeleteAll(a, c) + DeleteAll(b, c)
  {
    WithoutDistributes(a, b, c);
  }

  /** A single character is dropped when it is `c` and kept otherwise. */
  lemma DeleteAllSingle(x: char, c: char)
    ensures DeleteAll([x], c) == if x == c then [] else [x]
  {
    WithoutCons(x, [], c);
    assert [x] + [] == [x];
  }

  /** Ruby string interpolation: `"#{nil}"` is the empty string. */
  function Interpolate(v: Option<string>): (s: string)
    ensures v.None? ==> s == ""
    ensures v.Some? ==> s == v.value
  {
    match v
    case Some(s) => s
    case None => ""
  }
}
