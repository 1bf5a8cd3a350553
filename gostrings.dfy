/** The two functions of Go's `strings` package that the attribute extractor relies on,
    over `string` = `seq<char>`. */
module GoStrings {

  /** Joins `parts` with `sep` in between (Go's strings.Join for a one-character separator):
      the reference against which Split is checked. */
  function Join(parts: seq<string>, sep: char): string
    decreases |parts|
  {
    if |parts| == 0 then ""
    else if |parts| == 1 then parts[0]
    else parts[0] + [sep] + Join(parts[1..], sep)
  }

  /** strings.Split(s, string(sep)): the pieces of `s` between occurrences of `sep`.
      There is always at least one piece (the empty string splits into [""]), no piece
      contains `sep`, and joining the pieces gives back `s`. */
  function Split(s: string, sep: char): (r: seq<string>)
    ensures |r| >= 1
    ensures forall i :: 0 <= i < |r| ==> sep !in r[i]
    ensures Join(r, sep) == s
    decreases |s|
  {
    if s == [] then [""]
    else
      var rest := Split(s[1..], sep);
      if s[0] == sep then
        [""] + rest
      else
        assert |rest| > 1 ==> Join(rest, sep) == rest[0] + [sep] + Join(rest[1..], sep);
        [[s[0]] + rest[0]] + rest[1..]
  }

  /** Split undoes Join: a non-empty list of pieces free of `sep` is recovered exactly. */
  lemma {:induction false} SplitJoin(parts: seq<string>, sep: char)
    requires |parts| >= 1
    requires forall i :: 0 <= i < |parts| ==> sep !in parts[i]
    ensures Split(Join(parts, sep), sep) == parts
    decreases |parts|, |parts[0]|
  {
    if |parts[0]| > 0 {
      // Peel the first character off the first piece.
      var c := parts[0][0];
      var parts' := [parts[0][1..]] + parts[1..];
      assert Join(parts, sep) == [c] + Join(parts', sep) by {
        if |parts| > 1 {
          assert parts'[1..] == parts[1..];
        }
      }
      SplitJoin(parts', sep);
      assert c != sep by { assert c == parts[0][0]; }
      assert ([c] + Join(parts', sep))[1..] == Join(parts', sep);
      assert [c] + parts'[0] == parts[0];
      assert [[c] + parts'[0]] + parts'[1..] == parts;
    } else if |parts| > 1 {
      // An empty first piece: the joined string starts with `sep`.
      assert Join(parts, sep) == [sep] + Join(parts[1..], sep);
      SplitJoin(parts[1..], sep);
      assert ([sep] + Join(parts[1..], sep))[1..] == Join(parts[1..], sep);
      assert [""] + parts[1..] == parts;
    }
  }

  /** The lower case of an ASCII letter; every other character is left alone. */
  function LowerChar(c: char): char
  {
    if 'A' <= c <= 'Z' then (c as int + 32) as char else c
  }

  /** The upper case of an ASCII letter; every other character is left alone. */
  function UpperChar(c: char): char
  {
    if 'a' <= c <= 'z' then (c as int - 32) as char else c
  }

  /** strings.ToLower, restricted to ASCII case mapping: the same length, every
      character lower-cased in place. */
  function ToLower(s: string): (r: string)
    ensures |r| == |s|
    ensures forall i :: 0 <= i < |s| ==> r[i] == LowerChar(s[i])
    decreases |s|
  {
    if s == [] then [] else [LowerChar(s[0])] + ToLower(s[1..])
  }

  /** Lower-casing a character yields a given lower-case letter exactly when the
      character is that letter in either case. */
  lemma LowerCharMatches(c: char, w: char)
    requires 'a' <= w <= 'z'
    ensures LowerChar(c) == w <==> c == w || c == UpperChar(w)
  {
  }

  /** Comparing ToLower(s) with an all-lower-case word is case-insensitive equality:
      each character of `s` is the word's letter in either case. */
  lemma ToLowerMatches(s: string, word: string)
    requires forall i :: 0 <= i < |word| ==> 'a' <= word[i] <= 'z'
    ensures ToLower(s) == word <==>
              |s| == |word| && forall i :: 0 <= i < |s| ==> s[i] == word[i] || s[i] == UpperChar(word[i])
  {
    if |s| == |word| {
      forall i | 0 <= i < |s|
        ensures ToLower(s)[i] == word[i] <==> s[i] == word[i] || s[i] == UpperChar(word[i])
      {
        LowerCharMatches(s[i], word[i]);
      }
    }
  }
}
