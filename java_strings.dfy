/**
 * The few java.lang.String operations the core relies on, with Java's semantics:
 * trim-based blankness, lower-casing, prefix and substring tests, lastIndexOf,
 * and split on a one-character literal separator.
 */
module JavaStrings {

  /** Blank in the sense of @NotBlank: after String.trim() nothing is left, i.e. every char is <= U+0020. */
  predicate IsBlank(s: string) {
    forall i :: 0 <= i < |s| ==> s[i] <= ' '
  }

  /**
   * String.length(): the number of UTF-16 code units, which is what @Size counts. A character
   * outside the Basic Multilingual Plane is a surrogate pair and counts twice.
   */
  function Utf16Length(s: string): (n: nat)
    ensures |s| <= n <= 2 * |s|
    ensures (forall i :: 0 <= i < |s| ==> (s[i] as int) < 0x1_0000) ==> n == |s|
  {
    if s == [] then 0
    else
      assert forall i :: 0 <= i < |s| - 1 ==> s[..|s| - 1][i] == s[i];
      Utf16Length(s[..|s| - 1]) + if (s[|s| - 1] as int) < 0x1_0000 then 1 else 2
  }

  /** The code units of a concatenation are those of its parts. */
  lemma {:induction false} Utf16LengthConcat(s: string, t: string)
    ensures Utf16Length(s + t) == Utf16Length(s) + Utf16Length(t)
  {
    if t == [] {
      assert s + t == s;
    } else {
      var init := t[..|t| - 1];
      assert (s + t)[..|s + t| - 1] == s + init;
      assert (s + t)[|s + t| - 1] == t[|t| - 1];
      Utf16LengthConcat(s, init);
    }
  }

  /** Lower-casing of one character; only the ASCII letters A-Z are mapped. */
  function LowerChar(c: char): char {
    if 'A' <= c <= 'Z' then (c as int + 32) as char else c
  }

  /** String.toLowerCase, character by character. */
  function ToLower(s: string): (r: string)
    ensures |r| == |s|
    ensures forall i :: 0 <= i < |s| ==> r[i] == LowerChar(s[i])
  {
    if s == [] then [] else [LowerChar(s[0])] + ToLower(s[1..])
  }

  /** tags.stream().map(String::toLowerCase).collect(toList()) */
  function LowerAll(ss: seq<string>): (r: seq<string>)
    ensures |r| == |ss|
    ensures forall i :: 0 <= i < |ss| ==> r[i] == ToLower(ss[i])
  {
    if ss == [] then [] else [ToLower(ss[0])] + LowerAll(ss[1..])
  }

  lemma {:induction false} ToLowerIdempotent(s: string)
    ensures ToLower(ToLower(s)) == ToLower(s)
  {
    var t := ToLower(s);
    assert |ToLower(t)| == |t|;
    forall i | 0 <= i < |t| ensures ToLower(t)[i] == t[i] {
    }
  }

  predicate StartsWith(s: string, prefix: string) {
    |prefix| <= |s| && s[..|prefix|] == prefix
  }

  predicate OccursAt(s: string, sub: string, i: int) {
    0 <= i && i + |sub| <= |s| && s[i..i + |sub|] == sub
  }

  /** String.contains */
  predicate Contains(s: string, sub: string) {
    exists i | 0 <= i <= |s| :: OccursAt(s, sub, i)
  }

  /** A string lacking one of the characters of `sub` does not contain `sub`. */
  lemma NotContainsIfLacks(s: string, sub: string, k: nat)
    requires k < |sub| && sub[k] !in s
    ensures !Contains(s, sub)
  {
    forall i | 0 <= i <= |s| ensures !OccursAt(s, sub, i) {
      if i + |sub| <= |s| {
        assert s[i..i + |sub|][k] == s[i + k];
      }
    }
  }

  /** String.lastIndexOf(char): the last position of c, or -1. */
  function LastIndexOf(s: string, c: char): (r: int)
    ensures -1 <= r < |s|
    ensures r == -1 <==> c !in s
    ensures 0 <= r ==> s[r] == c && c !in s[r + 1..]
  {
    if |s| == 0 then -1
    else if s[|s| - 1] == c then |s| - 1
    else
      var r := LastIndexOf(s[..|s| - 1], c);
      assert s == s[..|s| - 1] + [s[|s| - 1]];
      assert 0 <= r ==> s[r + 1..] == s[..|s| - 1][r + 1..] + [s[|s| - 1]];
      r
  }

  /** The last occurrence in a concatenation lies in the second part when that part has one. */
  lemma {:induction false} LastIndexOfConcat(s: string, t: string, c: char)
    ensures LastIndexOf(s + t, c) == if c in t then |s| + LastIndexOf(t, c) else LastIndexOf(s, c)
  {
    if t == [] {
      assert s + t == s;
    } else {
      var st := s + t;
      var t' := t[..|t| - 1];
      assert st[|st| - 1] == t[|t| - 1];
      if t[|t| - 1] != c {
        assert st[..|st| - 1] == s + t';
        assert t == t' + [t[|t| - 1]];
        LastIndexOfConcat(s, t', c);
      }
    }
  }

  /** Appending one character moves the last occurrence to the end exactly when it is that character. */
  lemma LastIndexOfSnoc(s: string, x: char, c: char)
    ensures LastIndexOf(s + [x], c) == if x == c then |s| else LastIndexOf(s, c)
  {
    assert (s + [x])[..|s|] == s;
  }

  /** Every piece between separators, empty ones included ("a,,b," gives ["a", "", "b", ""]). */
  function SplitAll(s: string, sep: char): (r: seq<string>)
    ensures |r| >= 1
    ensures forall k :: 0 <= k < |r| ==> sep !in r[k]
  {
    if s == [] then [""]
    else
      var rest := SplitAll(s[1..], sep);
      if s[0] == sep then [""] + rest else [[s[0]] + rest[0]] + rest[1..]
  }

  /** The inverse of SplitAll: the pieces glued back with the separator. */
  function Join(parts: seq<string>, sep: char): string
    requires |parts| >= 1
  {
    if |parts| == 1 then parts[0] else parts[0] + [sep] + Join(parts[1..], sep)
  }

  lemma {:induction false} JoinSplitAll(s: string, sep: char)
    ensures Join(SplitAll(s, sep), sep) == s
  {
    if s != [] {
      var rest := SplitAll(s[1..], sep);
      JoinSplitAll(s[1..], sep);
      if s[0] == sep {
        assert SplitAll(s, sep) == [""] + rest;
        assert ([""] + rest)[1..] == rest;
      } else {
        var r := SplitAll(s, sep);
        assert r == [[s[0]] + rest[0]] + rest[1..];
        if |rest| == 1 {
          assert r == [[s[0]] + rest[0]];
        } else {
          assert r[1..] == rest[1..];
        }
      }
    }
  }

  /** Drops the empty strings at the end of a list, as String.split does. */
  function DropTrailingEmpty(parts: seq<string>): (r: seq<string>)
    ensures |r| <= |parts| && r == parts[..|r|]
    ensures r == [] || r[|r| - 1] != ""
    ensures forall k :: |r| <= k < |parts| ==> parts[k] == ""
  {
    if |parts| > 0 && parts[|parts| - 1] == "" then DropTrailingEmpty(parts[..|parts| - 1]) else parts
  }

  /**
   * String.split(String.valueOf(sep)) for a separator that is not a regex metacharacter:
   * without any occurrence the whole string is the only piece (so "" splits to [""]);
   * otherwise all pieces, with the trailing empty ones removed.
   */
  function JavaSplit(s: string, sep: char): (r: seq<string>)
    ensures sep !in s ==> r == [s]
    ensures forall k :: 0 <= k < |r| ==> sep !in r[k]
    ensures sep in s ==> r == [] || r[|r| - 1] != ""
  {
    if sep !in s then [s] else DropTrailingEmpty(SplitAll(s, sep))
  }

  /** A string that does not end in the separator has a non-empty last piece. */
  lemma {:induction false} SplitAllLastNonEmpty(s: string, sep: char)
    requires s != [] && s[|s| - 1] != sep
    ensures SplitAll(s, sep)[|SplitAll(s, sep)| - 1] != ""
  {
    if s[1..] != [] {
      SplitAllLastNonEmpty(s[1..], sep);
    }
  }

  /** Splitting a string that does not end in the separator loses nothing: joining gives it back. */
  lemma JoinJavaSplit(s: string, sep: char)
    requires s == [] || s[|s| - 1] != sep
    ensures |JavaSplit(s, sep)| >= 1 && Join(JavaSplit(s, sep), sep) == s
  {
    if sep in s {
      SplitAllLastNonEmpty(s, sep);
      assert JavaSplit(s, sep) == SplitAll(s, sep);
      JoinSplitAll(s, sep);
    }
  }
}
