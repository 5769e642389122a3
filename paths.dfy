/** Absolute paths as `pathlib` sees them: the sequence of components below the root. */
module Paths {

  /** `/music/a/b.mp3` is `["music", "a", "b.mp3"]`; the root itself is `[]`. */
  type Path = seq<string>

  /** `p / c`: joining an empty component leaves the path as it is. */
  function Join(p: Path, c: string): Path
  {
    if c == "" then p else p + [c]
  }

  /** `Path.name`: the last component, or "" for the root. */
  function Name(p: Path): string
  {
    if p == [] then "" else p[|p| - 1]
  }

  /** `Path.parent`: the root is its own parent. */
  function Parent(p: Path): Path
  {
    if p == [] then [] else p[..|p| - 1]
  }

  /** `str.rfind('.')`: the index of the last dot, or -1. */
  function LastDot(s: string): (r: int)
    ensures -1 <= r < |s|
    ensures r >= 0 ==> s[r] == '.'
    ensures forall k :: r < k < |s| ==> s[k] != '.'
  {
    if s == [] then -1
    else if s[|s| - 1] == '.' then |s| - 1
    else LastDot(s[..|s| - 1])
  }

  /** `PurePath.suffix` of a file name: from the last dot on, provided that dot
      is neither the first nor the last character; otherwise "". */
  function Suffix(name: string): string
  {
    var i := LastDot(name);
    if 0 < i < |name| - 1 then name[i..] else ""
  }

  /** The suffix is empty, or a trailing piece of the name of at least two
      characters that starts with its only dot and is not the whole name. */
  lemma SuffixShape(name: string)
    ensures var x := Suffix(name);
      x == "" ||
      (2 <= |x| < |name| && x == name[|name| - |x|..] && x[0] == '.' &&
       forall k :: 0 < k < |x| ==> x[k] != '.')
  {
    var i := LastDot(name);
    if 0 < i < |name| - 1 {
      var x := name[i..];
      forall k | 0 < k < |x| ensures x[k] != '.' {
        assert x[k] == name[i + k];
      }
    }
  }

  /** Lemma: the last dot of a name, when neither first nor last, starts `Path.suffix`. */
  lemma SuffixOfLastDot(name: string, i: int)
    requires 0 < i < |name| - 1 && name[i] == '.'
    requires forall k :: i < k < |name| ==> name[k] != '.'
    ensures Suffix(name) == name[i..]
  {
    assert LastDot(name) == i;
  }

  /** One character of `str.lower()` restricted to ASCII letters. */
  function LowerChar(c: char): char
  {
    if 'A' <= c <= 'Z' then (c as int + 32) as char else c
  }

  /** `str.lower()` on ASCII letters; other characters are kept. */
  function LowerAscii(s: string): string
  {
    seq(|s|, i requires 0 <= i < |s| => LowerChar(s[i]))
  }

  /** Lemma: lowercasing keeps the length, leaves no ASCII capital, keeps every
      other character, and moves each capital to its small letter. */
  lemma LowerAsciiLowers(s: string)
    ensures var r := LowerAscii(s);
      && |r| == |s|
      && (forall i :: 0 <= i < |r| ==> !('A' <= r[i] <= 'Z'))
      && (forall i :: 0 <= i < |s| && !('A' <= s[i] <= 'Z') ==> r[i] == s[i])
      && (forall i :: 0 <= i < |s| && 'A' <= s[i] <= 'Z' ==> r[i] as int == s[i] as int + 32)
  {
  }

  /** Lemma: lowercasing twice is lowercasing once. */
  lemma LowerAsciiIdempotent(s: string)
    ensures LowerAscii(LowerAscii(s)) == LowerAscii(s)
  {
    var r := LowerAscii(s);
    LowerAsciiLowers(s);
    LowerAsciiLowers(r);
  }
}
