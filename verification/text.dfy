/** The Go `strings` functions the explorer, the configuration loader and
    the command-line client rely on: Split and Join on a one-character
    separator, TrimSpace, Fields, HasPrefix, TrimPrefix and ToUpper. */
module Text {

  /** unicode.IsSpace: the Unicode White_Space property. */
  predicate IsSpace(c: char) {
    ('\t' <= c <= '\r') || c == ' ' || c == '\U{0085}' || c == '\U{00A0}' || c == '\U{1680}'
    || ('\U{2000}' <= c <= '\U{200A}') || c == '\U{2028}' || c == '\U{2029}'
    || c == '\U{202F}' || c == '\U{205F}' || c == '\U{3000}'
  }

  /** Number of occurrences of `c` in `s`. */
  function Count(s: string, c: char): nat {
    if |s| == 0 then 0 else (if s[0] == c then 1 else 0) + Count(s[1..], c)
  }

  lemma {:induction false} CountAppend(a: string, b: string, c: char)
    ensures Count(a + b, c) == Count(a, c) + Count(b, c)
  {
    if |a| == 0 {
      assert a + b == b;
    } else {
      assert (a + b)[1..] == a[1..] + b;
      CountAppend(a[1..], b, c);
    }
  }

  lemma CountSlice(s: string, i: nat, j: nat, c: char)
    requires i <= j <= |s|
    ensures Count(s[i..j], c) <= Count(s, c)
  {
    assert s == s[..i] + s[i..j] + s[j..];
    CountAppend(s[..i] + s[i..j], s[j..], c);
    CountAppend(s[..i], s[i..j], c);
  }

  // ---------------------------------------------------------------------
  // HasPrefix / TrimPrefix

  predicate HasPrefix(s: string, prefix: string) {
    |prefix| <= |s| && s[..|prefix|] == prefix
  }

  /** strings.TrimPrefix: `s` without `prefix` when it starts with it, else `s`. */
  function TrimPrefix(s: string, prefix: string): (r: string)
    ensures HasPrefix(s, prefix) ==> prefix + r == s
    ensures !HasPrefix(s, prefix) ==> r == s
  {
    if HasPrefix(s, prefix) then s[|prefix|..] else s
  }

  // ---------------------------------------------------------------------
  // TrimSpace

  /** Drops the leading white space: the result is the suffix of `s` that
      starts at its first non-space character. */
  function TrimLeft(s: string): (r: string)
    ensures |r| <= |s| && r == s[|s| - |r|..]
    ensures r == [] || !IsSpace(r[0])
    ensures forall i :: 0 <= i < |s| - |r| ==> IsSpace(s[i])
  {
    if |s| > 0 && IsSpace(s[0]) then TrimLeft(s[1..]) else s
  }

  /** Drops the trailing white space: the result is the prefix of `s` that
      ends at its last non-space character. */
  function TrimRight(s: string): (r: string)
    ensures |r| <= |s| && r == s[..|r|]
    ensures r == [] || !IsSpace(r[|r| - 1])
    ensures forall i :: |r| <= i < |s| ==> IsSpace(s[i])
  {
    if |s| > 0 && IsSpace(s[|s| - 1]) then TrimRight(s[..|s| - 1]) else s
  }

  /** strings.TrimSpace. */
  function TrimSpace(s: string): (r: string)
    ensures r == [] || (!IsSpace(r[0]) && !IsSpace(r[|r| - 1]))
  {
    TrimRight(TrimLeft(s))
  }

  /** The trimmed text is a contiguous piece of the original. */
  lemma TrimSpaceSlice(s: string) returns (i: nat, j: nat)
    ensures i <= j <= |s| && TrimSpace(s) == s[i..j]
  {
    var l := TrimLeft(s);
    i := |s| - |l|;
    j := i + |TrimRight(l)|;
    assert l[..|TrimRight(l)|] == s[i..j];
  }

  /** TrimSpace is empty exactly when every character is white space. */
  lemma TrimSpaceEmpty(s: string)
    ensures TrimSpace(s) == [] <==> forall i :: 0 <= i < |s| ==> IsSpace(s[i])
  {
  }

  /** A text with no white space at either end is its own trim. */
  lemma TrimSpaceFixed(s: string)
    requires s == [] || (!IsSpace(s[0]) && !IsSpace(s[|s| - 1]))
    ensures TrimSpace(s) == s
  {
  }

  lemma TrimSpaceIdempotent(s: string)
    ensures TrimSpace(TrimSpace(s)) == TrimSpace(s)
  {
    TrimSpaceFixed(TrimSpace(s));
  }

  // ---------------------------------------------------------------------
  // Split and Join on a one-character separator

  /** strings.Split(s, [sep]): the pieces between the separators, in order;
      the empty string splits into one empty piece. */
  function Split(s: string, sep: char): (parts: seq<string>)
    ensures |parts| >= 1
  {
    if |s| == 0 then [""]
    else
      var rest := Split(s[1..], sep);
      if s[0] == sep then [""] + rest
      else [[s[0]] + rest[0]] + rest[1..]
  }

  /** strings.Join(parts, [sep]). */
  function Join(parts: seq<string>, sep: char): string {
    if |parts| == 0 then ""
    else if |parts| == 1 then parts[0]
    else parts[0] + [sep] + Join(parts[1..], sep)
  }

  /** Every piece is free of the separator, and there is one piece more
      than there are separators. */
  lemma {:induction false} SplitParts(s: string, sep: char)
    ensures forall p <- Split(s, sep) :: sep !in p
    ensures |Split(s, sep)| == Count(s, sep) + 1
  {
    if |s| > 0 {
      SplitParts(s[1..], sep);
    }
  }

  /** Joining the pieces gives back the text. */
  lemma {:induction false} JoinSplit(s: string, sep: char)
    ensures Join(Split(s, sep), sep) == s
  {
    if |s| > 0 {
      var rest := Split(s[1..], sep);
      JoinSplit(s[1..], sep);
      if s[0] == sep {
        assert Join([""] + rest, sep) == "" + [sep] + Join(rest, sep) by {
          assert ([""] + rest)[1..] == rest;
        }
        assert s == [sep] + s[1..];
      } else {
        var parts := [[s[0]] + rest[0]] + rest[1..];
        if |rest| == 1 {
          assert s == [s[0]] + s[1..];
        } else {
          assert parts[1..] == rest[1..];
          assert Join(parts, sep) == [s[0]] + rest[0] + [sep] + Join(rest[1..], sep);
          assert s == [s[0]] + s[1..];
        }
      }
    }
  }

  lemma {:induction false} SplitAfterPiece(a: string, t: string, sep: char)
    requires sep !in a
    ensures Split(a + [sep] + t, sep) == [a] + Split(t, sep)
  {
    var s := a + [sep] + t;
    if |a| == 0 {
      assert s[1..] == t;
    } else {
      assert s[1..] == a[1..] + [sep] + t;
      SplitAfterPiece(a[1..], t, sep);
      assert [s[0]] + a[1..] == a;
    }
  }

  lemma {:induction false} SplitNoSeparator(a: string, sep: char)
    requires sep !in a
    ensures Split(a, sep) == [a]
  {
    if |a| > 0 {
      SplitNoSeparator(a[1..], sep);
      assert [a[0]] + a[1..] == a;
    }
  }

  /** Splitting a join of separator-free pieces gives back the pieces. */
  lemma {:induction false} SplitJoin(parts: seq<string>, sep: char)
    requires |parts| >= 1
    requires forall p <- parts :: sep !in p
    ensures Split(Join(parts, sep), sep) == parts
  {
    if |parts| == 1 {
      SplitNoSeparator(parts[0], sep);
    } else {
      SplitJoin(parts[1..], sep);
      SplitAfterPiece(parts[0], Join(parts[1..], sep), sep);
      assert [parts[0]] + parts[1..] == parts;
    }
  }

  // ---------------------------------------------------------------------
  // Fields

  /** The longest prefix of `s` that holds no white space. */
  function Word(s: string): (w: string)
    ensures |w| <= |s| && w == s[..|w|]
    ensures forall c <- w :: !IsSpace(c)
    ensures |w| == |s| || IsSpace(s[|w|])
  {
    if |s| == 0 || IsSpace(s[0]) then [] else [s[0]] + Word(s[1..])
  }

  /** A non-empty run of non-space characters. */
  predicate IsWord(w: string) {
    w != [] && forall c <- w :: !IsSpace(c)
  }

  /** strings.Fields: the maximal runs of non-space characters, in order. */
  function Fields(s: string): (fs: seq<string>)
    ensures forall f <- fs :: IsWord(f)
    decreases |s|
  {
    var t := TrimLeft(s);
    if |t| == 0 then []
    else
      var w := Word(t);
      assert IsWord(w) by { assert t[0] in w; }
      [w] + Fields(t[|w|..])
  }

  /** A text that is not all white space has at least one field, and the
      first field of a trimmed text is the word it starts with. */
  lemma FieldsOfTrimmed(s: string)
    requires s != [] && !IsSpace(s[0])
    ensures Fields(s) != [] && Fields(s)[0] == Word(s)
  {
  }

  // ---------------------------------------------------------------------
  // Upper and lower case

  /** unicode.ToUpper for the runes whose upper case is ASCII: a to z, the
      dotless i (U+0131) and the long s (U+017F). */
  function UpperRune(c: char): char {
    if 'a' <= c <= 'z' then (c as int - 32) as char
    else if c == '\U{0131}' then 'I'
    else if c == '\U{017F}' then 'S'
    else c
  }

  /** ASCII lower case. */
  function LowerRune(c: char): char {
    if 'A' <= c <= 'Z' then (c as int + 32) as char else c
  }

  /** strings.ToUpper (see UpperRune for the runes it covers). */
  function ToUpper(s: string): (r: string)
    ensures |r| == |s|
    ensures forall i :: 0 <= i < |s| ==> r[i] == UpperRune(s[i])
  {
    seq(|s|, i requires 0 <= i < |s| => UpperRune(s[i]))
  }

  function ToLower(s: string): (r: string)
    ensures |r| == |s|
    ensures forall i :: 0 <= i < |s| ==> r[i] == LowerRune(s[i])
  {
    seq(|s|, i requires 0 <= i < |s| => LowerRune(s[i]))
  }

  /** Upper-casing a lower-cased text gives the same as upper-casing the
      original, so two spellings that differ only in case agree. */
  lemma UpperOfLower(s: string)
    ensures ToUpper(ToLower(s)) == ToUpper(s)
  {
    forall i | 0 <= i < |s|
      ensures ToUpper(ToLower(s))[i] == ToUpper(s)[i]
    {
      var c := s[i];
      assert 'A' <= c <= 'Z' ==> UpperRune(LowerRune(c)) == c == UpperRune(c);
    }
  }

  lemma ToUpperIdempotent(s: string)
    ensures ToUpper(ToUpper(s)) == ToUpper(s)
  {
  }
}
