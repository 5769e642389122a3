/** `MusicOrganizer.sanitize_filename`: turns one tag value into a path
    component that is safe on common filesystems. */
module Sanitize {

  /** Longest component the sanitizer lets through. */
  const MaxLength: nat := 200

  /** What a component becomes when nothing usable is left. */
  const Fallback: string := "Unknown"

  /** The characters `<>:"/\|?*`, which the first substitution removes. */
  predicate IsForbidden(c: char)
  {
    c == '<' || c == '>' || c == ':' || c == '"' || c == '/' || c == '\\' ||
    c == '|' || c == '?' || c == '*'
  }

  /** The characters Python's `\s` matches in a `str` pattern (those for which
      `str.isspace()` holds). */
  predicate IsWhitespace(c: char)
  {
    '\t' <= c <= '\r' || '\U{1C}' <= c <= ' ' ||
    c == '\U{85}' || c == '\U{A0}' || c == '\U{1680}' ||
    '\U{2000}' <= c <= '\U{200A}' || c == '\U{2028}' || c == '\U{2029}' ||
    c == '\U{202F}' || c == '\U{205F}' || c == '\U{3000}'
  }

  /** The characters of `strip('. ')`. */
  predicate IsStripped(c: char)
  {
    c == '.' || c == ' '
  }

  /** A character that cannot start a sanitized component: removed, collapsed or stripped. */
  predicate IsJunk(c: char)
  {
    IsForbidden(c) || IsWhitespace(c) || c == '.'
  }

  ghost predicate AllJunk(s: string)
  {
    forall i :: 0 <= i < |s| ==> IsJunk(s[i])
  }

  ghost predicate NoForbidden(s: string)
  {
    forall i :: 0 <= i < |s| ==> !IsForbidden(s[i])
  }

  /** Every whitespace character is a plain space. */
  ghost predicate SpacesOnly(s: string)
  {
    forall i :: 0 <= i < |s| && IsWhitespace(s[i]) ==> s[i] == ' '
  }

  /** No two whitespace characters stand next to each other. */
  ghost predicate NoDoubleWhitespace(s: string)
  {
    forall i, j :: 0 <= i < |s| && j == i + 1 && j < |s| ==> !(IsWhitespace(s[i]) && IsWhitespace(s[j]))
  }

  /** The shape collapsing leaves behind, with no forbidden character. */
  ghost predicate Shaped(s: string)
  {
    NoForbidden(s) && SpacesOnly(s) && NoDoubleWhitespace(s)
  }

  /** A component the sanitizer leaves as it is. */
  ghost predicate IsCleanName(s: string)
  {
    && 0 < |s| <= MaxLength
    && Shaped(s)
    && !IsStripped(s[0])
    && !IsStripped(s[|s| - 1])
  }

  // ---------------------------------------------------------------------
  // The stages of sanitize_filename, in order
  // ---------------------------------------------------------------------

  /** `re.sub(r'[<>:"/\\|?*]', '', name)`. */
  function RemoveForbidden(s: string): string
  {
    if s == [] then []
    else if IsForbidden(s[0]) then RemoveForbidden(s[1..])
    else [s[0]] + RemoveForbidden(s[1..])
  }

  /** Drops the leading run of whitespace: what goes is all whitespace, what
      stays is the rest of the input and does not start with whitespace. */
  function DropWhitespace(s: string): (r: string)
    ensures |r| <= |s| && r == s[|s| - |r|..]
    ensures forall i :: 0 <= i < |s| - |r| ==> IsWhitespace(s[i])
    ensures r == [] || !IsWhitespace(r[0])
  {
    if s != [] && IsWhitespace(s[0]) then
      assert forall i :: 1 <= i < |s| ==> s[i] == s[1..][i - 1];
      DropWhitespace(s[1..])
    else s
  }

  /** A character the second substitution never touches. */
  predicate IsVisible(c: char)
  {
    !IsWhitespace(c)
  }

  /** `re.sub(r'\s+', ' ', name)`: every maximal run of whitespace becomes one
      space. The result holds whitespace only as single spaces, and the
      characters that are not whitespace are those of the input, in order. */
  function CollapseWhitespace(s: string): (r: string)
    decreases |s|
    ensures s != [] ==> r != [] && r[0] == (if IsWhitespace(s[0]) then ' ' else s[0])
    ensures SpacesOnly(r) && NoDoubleWhitespace(r)
    ensures Filter(r, IsVisible) == Filter(s, IsVisible)
  {
    if s == [] then []
    else if IsWhitespace(s[0]) then
      var t := DropWhitespace(s[1..]);
      var rest := CollapseWhitespace(t);
      ConsShape(' ', rest);
      FilterCons(' ', rest, IsVisible);
      FilterCons(s[0], s[1..], IsVisible);
      DropWhitespaceKeepsText(s[1..], IsVisible);
      [' '] + rest
    else
      var rest := CollapseWhitespace(s[1..]);
      ConsShape(s[0], rest);
      FilterCons(s[0], rest, IsVisible);
      FilterCons(s[0], s[1..], IsVisible);
      [s[0]] + rest
  }

  /** How many leading characters `strip('. ')` removes: all of them dots or
      spaces, up to the first character that is neither. */
  function LeadingStripped(s: string): (k: nat)
    ensures k <= |s|
    ensures forall i :: 0 <= i < k ==> IsStripped(s[i])
    ensures k < |s| ==> !IsStripped(s[k])
  {
    if s != [] && IsStripped(s[0]) then
      assert forall i :: 1 <= i < |s| ==> s[i] == s[1..][i - 1];
      1 + LeadingStripped(s[1..])
    else 0
  }

  /** How many characters are left once `strip('. ')` has removed the trailing
      ones: all removed characters are dots or spaces, and the last one kept is neither. */
  function TrailingKept(s: string): (k: nat)
    ensures k <= |s|
    ensures forall i :: k <= i < |s| ==> IsStripped(s[i])
    ensures k > 0 ==> !IsStripped(s[k - 1])
  {
    if s != [] && IsStripped(s[|s| - 1]) then TrailingKept(s[..|s| - 1]) else |s|
  }

  /** Strips leading dots and spaces, and nothing else. */
  function StripStart(s: string): (r: string)
    ensures |r| <= |s| && r == s[|s| - |r|..]
    ensures forall i :: 0 <= i < |s| - |r| ==> IsStripped(s[i])
    ensures r == [] || !IsStripped(r[0])
  {
    s[LeadingStripped(s)..]
  }

  /** Strips trailing dots and spaces, and nothing else. */
  function StripEnd(s: string): (r: string)
    ensures |r| <= |s| && r == s[..|r|]
    ensures forall i :: |r| <= i < |s| ==> IsStripped(s[i])
    ensures r == [] || !IsStripped(r[|r| - 1])
  {
    s[..TrailingKept(s)]
  }

  /** The name after both substitutions and `strip('. ')`, before the length limit. */
  function Clean(s: string): string
  {
    StripEnd(StripStart(CollapseWhitespace(RemoveForbidden(s))))
  }

  /** `name[:200]` when it is longer. */
  function Truncate(s: string): string
  {
    if |s| > MaxLength then s[..MaxLength] else s
  }

  /** `sanitize_filename(name)`. */
  function SanitizeFilename(name: string): (r: string)
    ensures 0 < |r| <= MaxLength
  {
    var t := Truncate(Clean(name));
    if t == [] then Fallback else t
  }

  /** Drops the leading characters that sanitizing removes from the front:
      what goes is all junk, what stays is the rest of the input. */
  function DropJunk(s: string): (r: string)
    ensures |r| <= |s| && r == s[|s| - |r|..]
    ensures forall i :: 0 <= i < |s| - |r| ==> IsJunk(s[i])
    ensures r == [] || !IsJunk(r[0])
  {
    if s != [] && IsJunk(s[0]) then
      assert forall i :: 1 <= i < |s| ==> s[i] == s[1..][i - 1];
      DropJunk(s[1..])
    else s
  }

  // ---------------------------------------------------------------------
  // Facts about the stages
  // ---------------------------------------------------------------------

  lemma {:induction false} RemoveForbiddenShape(s: string)
    ensures NoForbidden(RemoveForbidden(s))
  {
    if s != [] {
      RemoveForbiddenShape(s[1..]);
    }
  }

  lemma {:induction false} CollapseKeepsNoForbidden(s: string)
    requires NoForbidden(s)
    ensures NoForbidden(CollapseWhitespace(s))
  {
    if s != [] {
      if IsWhitespace(s[0]) {
        var d := DropWhitespace(s[1..]);
        assert forall i :: 0 <= i < |d| ==> d[i] == s[|s| - |d| + i];
        CollapseKeepsNoForbidden(d);
      } else {
        assert forall i :: 0 <= i < |s| - 1 ==> s[1..][i] == s[i + 1];
        CollapseKeepsNoForbidden(s[1..]);
      }
    }
  }

  /** The three shape predicates carry over to any slice. */
  lemma SliceKeepsShape(s: string, a: nat, b: nat)
    requires a <= b <= |s|
    ensures NoForbidden(s) ==> NoForbidden(s[a..b])
    ensures SpacesOnly(s) ==> SpacesOnly(s[a..b])
    ensures NoDoubleWhitespace(s) ==> NoDoubleWhitespace(s[a..b])
  {
    var t := s[a..b];
    assert forall i :: 0 <= i < |t| ==> t[i] == s[a + i];
  }

  lemma {:induction false} RemoveForbiddenKeepsClean(s: string)
    requires NoForbidden(s)
    ensures RemoveForbidden(s) == s
  {
    if s != [] {
      assert forall i :: 0 <= i < |s| - 1 ==> s[1..][i] == s[i + 1];
      RemoveForbiddenKeepsClean(s[1..]);
    }
  }

  lemma {:induction false} CollapseKeepsSingleSpaces(s: string)
    requires SpacesOnly(s) && NoDoubleWhitespace(s)
    ensures CollapseWhitespace(s) == s
  {
    if s != [] {
      var t := s[1..];
      SliceKeepsShape(s, 1, |s|);
      CollapseKeepsSingleSpaces(t);
      if IsWhitespace(s[0]) {
        assert s[0] == ' ';
        assert t == [] || !IsWhitespace(t[0]);
        assert DropWhitespace(t) == t;
        assert CollapseWhitespace(s) == [' '] + CollapseWhitespace(DropWhitespace(t));
      } else {
        assert CollapseWhitespace(s) == [s[0]] + CollapseWhitespace(t);
      }
      assert s == [s[0]] + t;
    }
  }

  /** Stripping after collapsing does not see whether leading whitespace was there. */
  lemma StripCollapseDropWhitespace(t: string)
    ensures StripStart(CollapseWhitespace(DropWhitespace(t))) == StripStart(CollapseWhitespace(t))
  {
    if t != [] && IsWhitespace(t[0]) {
      var d := DropWhitespace(t[1..]);
      var x := CollapseWhitespace(d);
      assert DropWhitespace(t) == d;
      assert CollapseWhitespace(t) == [' '] + x;
      StripDropsStripped(' ', x);
    }
  }

  /** The front of the name once forbidden characters are removed, whitespace
      is collapsed and leading dots and spaces are stripped. */
  function Front(s: string): string
  {
    StripStart(CollapseWhitespace(RemoveForbidden(s)))
  }

  /** A leading dot or space is stripped. */
  lemma StripDropsStripped(c: char, y: string)
    requires IsStripped(c)
    ensures StripStart([c] + y) == StripStart(y)
  {
    assert ([c] + y)[1..] == y;
    assert LeadingStripped([c] + y) == 1 + LeadingStripped(y);
  }

  /** Collapsing a string with a known first character: whitespace becomes a
      space and takes the whitespace after it along; anything else stays. */
  lemma CollapseCons(c: char, r: string)
    ensures CollapseWhitespace([c] + r) ==
      if IsWhitespace(c) then [' '] + CollapseWhitespace(DropWhitespace(r)) else [c] + CollapseWhitespace(r)
  {
    assert ([c] + r)[0] == c && ([c] + r)[1..] == r;
  }

  /** A run made only of whitespace collapses to a single space. */
  lemma CollapseOfWhitespace(w: string)
    requires w != [] && forall i :: 0 <= i < |w| ==> IsWhitespace(w[i])
    ensures CollapseWhitespace(w) == [' ']
  {
    assert DropWhitespace(w[1..]) == [];
  }

  /** Dropping leading whitespace from a concatenation: once the first part
      has something left, the second part is untouched. */
  lemma {:induction false} DropWhitespaceAppend(x: string, b: string)
    decreases |x|
    ensures DropWhitespace(x + b) ==
      if DropWhitespace(x) == [] then DropWhitespace(b) else DropWhitespace(x) + b
  {
    if x == [] {
      assert x + b == b;
    } else {
      assert (x + b)[0] == x[0] && (x + b)[1..] == x[1..] + b;
      if IsWhitespace(x[0]) {
        DropWhitespaceAppend(x[1..], b);
      }
    }
  }

  /** Collapsing distributes over a concatenation whose seam does not split a
      run of whitespace: both sides collapse independently. */
  lemma {:induction false} CollapseAppend(a: string, b: string)
    requires a == [] || b == [] || !IsWhitespace(a[|a| - 1]) || !IsWhitespace(b[0])
    decreases |a|, 1
    ensures CollapseWhitespace(a + b) == CollapseWhitespace(a) + CollapseWhitespace(b)
  {
    if a == [] {
      assert a + b == b;
    } else if b == [] {
      assert a + b == a;
    } else if IsWhitespace(a[0]) && DropWhitespace(a[1..]) == [] {
      CollapseAppendRun(a, b);
    } else if IsWhitespace(a[0]) {
      CollapseAppendSpace(a, b);
    } else {
      CollapseAppendVisible(a, b);
    }
  }

  /** `CollapseAppend` when the first part starts with a visible character. */
  lemma {:induction false} CollapseAppendVisible(a: string, b: string)
    requires a != [] && b != [] && !IsWhitespace(a[0])
    requires !IsWhitespace(a[|a| - 1]) || !IsWhitespace(b[0])
    decreases |a|, 0
    ensures CollapseWhitespace(a + b) == CollapseWhitespace(a) + CollapseWhitespace(b)
  {
    var c, r := a[0], a[1..];
    assert a == [c] + r && a + b == [c] + (r + b);
    CollapseCons(c, r);
    CollapseCons(c, r + b);
    if r != [] {
      assert r[|r| - 1] == a[|a| - 1];
    }
    CollapseAppend(r, b);
    PrefixThenAppend([c], CollapseWhitespace(r), CollapseWhitespace(b),
      CollapseWhitespace(a), CollapseWhitespace(a + b), CollapseWhitespace(r + b));
  }

  /** `CollapseAppend` when the first part is whitespace throughout. */
  lemma CollapseAppendRun(a: string, b: string)
    requires a != [] && b != [] && IsWhitespace(a[0]) && DropWhitespace(a[1..]) == []
    requires !IsWhitespace(a[|a| - 1]) || !IsWhitespace(b[0])
    ensures CollapseWhitespace(a + b) == CollapseWhitespace(a) + CollapseWhitespace(b)
  {
    assert CollapseWhitespace(a) == [' '] by {
      CollapseSpaceHead(a, []);
      assert a + [] == a && a[1..] + [] == a[1..];
    }
    assert CollapseWhitespace(a + b) == [' '] + CollapseWhitespace(b) by {
      CollapseSpaceHead(a, b);
      DropWhitespaceAppend(a[1..], b);
      DropWhitespaceEmpty(a);
      assert DropWhitespace(b) == b;
    }
  }

  /** `CollapseAppend` when the first part starts with whitespace and has text after it. */
  lemma {:induction false} CollapseAppendSpace(a: string, b: string)
    requires a != [] && b != [] && IsWhitespace(a[0]) && DropWhitespace(a[1..]) != []
    requires !IsWhitespace(a[|a| - 1]) || !IsWhitespace(b[0])
    decreases |a|, 0
    ensures CollapseWhitespace(a + b) == CollapseWhitespace(a) + CollapseWhitespace(b)
  {
    var d := DropWhitespace(a[1..]);
    assert CollapseWhitespace(a) == [' '] + CollapseWhitespace(d) by {
      CollapseSpaceHead(a, []);
      assert a + [] == a && a[1..] + [] == a[1..];
    }
    assert CollapseWhitespace(a + b) == [' '] + CollapseWhitespace(d + b) by {
      CollapseSpaceHead(a, b);
      DropWhitespaceAppend(a[1..], b);
    }
    DropWhitespaceKeepsLast(a);
    CollapseAppend(d, b);
    PrefixThenAppend([' '], CollapseWhitespace(d), CollapseWhitespace(b),
      CollapseWhitespace(a), CollapseWhitespace(a + b), CollapseWhitespace(d + b));
  }

  /** A string starting with whitespace, followed by anything, collapses to one
      space and the collapse of what follows its leading run. */
  lemma CollapseSpaceHead(a: string, b: string)
    requires a != [] && IsWhitespace(a[0])
    ensures CollapseWhitespace(a + b) == [' '] + CollapseWhitespace(DropWhitespace(a[1..] + b))
  {
    assert (a + b)[0] == a[0] && (a + b)[1..] == a[1..] + b;
  }

  /** Whitespace throughout after the first character makes the last character whitespace. */
  lemma DropWhitespaceEmpty(a: string)
    requires a != [] && IsWhitespace(a[0]) && DropWhitespace(a[1..]) == []
    ensures IsWhitespace(a[|a| - 1])
  {
    if |a| > 1 {
      assert a[|a| - 1] == a[1..][|a| - 2];
    }
  }

  /** What is left after leading whitespace ends where the string ends. */
  lemma DropWhitespaceKeepsLast(a: string)
    requires a != [] && DropWhitespace(a[1..]) != []
    ensures var d := DropWhitespace(a[1..]); d[|d| - 1] == a[|a| - 1]
  {
    var t := a[1..];
    var d := DropWhitespace(t);
    assert d == t[|t| - |d|..];
    assert d[|d| - 1] == t[|t| - 1] == a[|a| - 1];
  }

  /** If `whole == head + x` and `longer == head + (x + y)`, then `longer == whole + y`. */
  lemma PrefixThenAppend<T>(head: seq<T>, x: seq<T>, y: seq<T>, whole: seq<T>, longer: seq<T>, joined: seq<T>)
    requires whole == head + x && joined == x + y && longer == head + joined
    ensures longer == whole + y
  {
  }

  /** A leading dot survives the substitutions and is then stripped. */
  lemma FrontSkipsDot(s: string)
    requires s != [] && s[0] == '.'
    ensures Front(s) == Front(s[1..])
  {
    var r := RemoveForbidden(s[1..]);
    assert RemoveForbidden(s) == ['.'] + r;
    CollapseCons('.', r);
    StripDropsStripped('.', CollapseWhitespace(r));
  }

  /** A leading whitespace character becomes a space, which is then stripped;
      the whitespace after it goes with it. */
  lemma FrontSkipsWhitespace(s: string)
    requires s != [] && IsWhitespace(s[0])
    ensures Front(s) == Front(s[1..])
  {
    var r := RemoveForbidden(s[1..]);
    assert RemoveForbidden(s) == [s[0]] + r;
    CollapseCons(s[0], r);
    StripDropsStripped(' ', CollapseWhitespace(DropWhitespace(r)));
    StripCollapseDropWhitespace(r);
  }

  /** A leading junk character leaves no trace in the front. */
  lemma FrontSkipsJunk(s: string)
    requires s != [] && IsJunk(s[0])
    ensures Front(s) == Front(s[1..])
  {
    if s[0] == '.' {
      FrontSkipsDot(s);
    } else if IsWhitespace(s[0]) {
      FrontSkipsWhitespace(s);
    }
  }

  /** A leading character that is not junk starts the front. */
  lemma FrontKeepsFirst(s: string)
    requires s != [] && !IsJunk(s[0])
    ensures Front(s) != [] && Front(s)[0] == s[0]
  {
    var r := RemoveForbidden(s[1..]);
    assert RemoveForbidden(s) == [s[0]] + r;
    assert ([s[0]] + r)[1..] == r;
  }

  /** The front is empty exactly when the name is all junk, and otherwise
      starts with the first character of the name that is not junk. */
  lemma {:induction false} StrippedFront(s: string)
    ensures Front(s) == [] <==> AllJunk(s)
    ensures Front(s) != [] ==> DropJunk(s) != [] && Front(s)[0] == DropJunk(s)[0]
  {
    if s != [] {
      assert AllJunk(s) <==> IsJunk(s[0]) && AllJunk(s[1..]) by {
        assert forall i :: 0 < i < |s| ==> s[i] == s[1..][i - 1];
      }
      if IsJunk(s[0]) {
        StrippedFront(s[1..]);
        FrontSkipsJunk(s);
      } else {
        FrontKeepsFirst(s);
      }
    }
  }

  /** Collapsing the name once forbidden characters are gone gives the three shape facts. */
  lemma CollapsedShape(s: string)
    ensures Shaped(CollapseWhitespace(RemoveForbidden(s)))
  {
    RemoveForbiddenShape(s);
    CollapseKeepsNoForbidden(RemoveForbidden(s));
  }

  /** Both strips cut a slice out of their argument, so the shape survives them. */
  lemma StripKeepsShape(w: string)
    requires Shaped(w)
    ensures Shaped(StripStart(w)) && Shaped(StripEnd(w))
  {
    SliceKeepsShape(w, |w| - |StripStart(w)|, |w|);
    SliceKeepsShape(w, 0, |StripEnd(w)|);
  }

  /** The cleaned name obeys the collapse rules, has no forbidden character
      and neither starts nor ends with a dot or a space. */
  lemma CleanShape(s: string)
    ensures var c := Clean(s);
      && Shaped(c)
      && (c != [] ==> !IsStripped(c[0]) && !IsStripped(c[|c| - 1]))
  {
    var w := CollapseWhitespace(RemoveForbidden(s));
    CollapsedShape(s);
    var a := StripStart(w);
    StripKeepsShape(w);
    StripKeepsShape(a);
    var c := StripEnd(a);
    if c != [] {
      assert c[0] == a[0];
    }
  }

  lemma {:induction false} StripEndKeepsUnstrippedFront(a: string)
    requires a != [] && !IsStripped(a[0])
    ensures StripEnd(a) != [] && StripEnd(a)[0] == a[0]
  {
    if |a| > 1 && IsStripped(a[|a| - 1]) {
      StripEndKeepsUnstrippedFront(a[..|a| - 1]);
    }
  }

  // ---------------------------------------------------------------------
  // What sanitize_filename promises
  // ---------------------------------------------------------------------

  /** The result is a non-empty component of at most 200 characters with none
      of `<>:"/\|?*`, that does not start with a dot or a space. */
  lemma SanitizeIsSafe(name: string)
    ensures var r := SanitizeFilename(name);
      0 < |r| <= MaxLength && NoForbidden(r) && !IsStripped(r[0])
  {
    CleanShape(name);
    var c := Clean(name);
    var t := Truncate(c);
    assert t == c[0..|t|];
    SliceKeepsShape(c, 0, |t|);
  }

  /** The only whitespace left is single spaces, never two in a row. */
  lemma SanitizeWhitespace(name: string)
    ensures var r := SanitizeFilename(name);
      SpacesOnly(r) && NoDoubleWhitespace(r)
  {
    var c := Clean(name);
    var t := Truncate(c);
    if t == [] {
      FallbackIsClean();
    } else {
      CleanShape(name);
      assert t == c[0..|t|];
      SliceKeepsShape(c, 0, |t|);
    }
  }

  /** The cleaned name is empty exactly when the name is all junk, and
      otherwise starts with the name's first character that is not junk. */
  lemma CleanFront(name: string)
    ensures Clean(name) == [] <==> AllJunk(name)
    ensures Clean(name) != [] ==> DropJunk(name) != [] && Clean(name)[0] == DropJunk(name)[0]
  {
    StrippedFront(name);
    var a := Front(name);
    assert Clean(name) == StripEnd(a);
    if a != [] {
      StripEndKeepsUnstrippedFront(a);
    }
  }

  /** A name made only of forbidden characters, whitespace and dots becomes
      exactly "Unknown"; any other name keeps the first of its characters that
      is none of those as the first character of the result. */
  lemma SanitizeFallback(name: string)
    ensures AllJunk(name) ==> SanitizeFilename(name) == Fallback
    ensures !AllJunk(name) ==>
      Clean(name) != [] && DropJunk(name) != [] && SanitizeFilename(name)[0] == DropJunk(name)[0]
  {
    CleanFront(name);
    var c := Clean(name);
    if c != [] {
      assert Truncate(c)[0] == c[0];
    } else {
      assert Truncate(c) == [];
    }
  }

  /** A shaped name that neither starts nor ends with a dot or a space is its own clean form. */
  lemma CleanKeepsShaped(s: string)
    requires Shaped(s) && s != [] && !IsStripped(s[0]) && !IsStripped(s[|s| - 1])
    ensures Clean(s) == s
  {
    RemoveForbiddenKeepsClean(s);
    CollapseKeepsSingleSpaces(s);
    StripKeepsCleanEnds(s);
  }

  /** A name that is already a clean component comes back unchanged. */
  lemma SanitizeKeepsCleanName(name: string)
    requires IsCleanName(name)
    ensures SanitizeFilename(name) == name
  {
    CleanKeepsShaped(name);
  }

  /** Sanitizing twice is sanitizing once, as long as the length limit did not cut the name. */
  lemma SanitizeIdempotent(name: string)
    requires |Clean(name)| <= MaxLength
    ensures SanitizeFilename(SanitizeFilename(name)) == SanitizeFilename(name)
  {
    var c := Clean(name);
    if c == [] {
      FallbackIsClean();
      SanitizeKeepsCleanName(Fallback);
    } else {
      CleanShape(name);
      assert SanitizeFilename(name) == c;
      SanitizeKeepsCleanName(c);
    }
  }

  lemma FallbackIsClean()
    ensures IsCleanName(Fallback)
  {
    assert forall i :: 0 <= i < |Fallback| ==> 'U' <= Fallback[i] <= 'w';
  }

  /** The name of the truncation witness below: 199 letters, a space and a letter. */
  function LongName(): (r: string)
    ensures |r| == MaxLength + 1
  {
    seq(MaxLength - 1, _ => 'a') + " b"
  }

  /** The witness has the shape collapsing leaves: its only whitespace is one
      space, between letters. */
  lemma LongNameShaped()
    ensures Shaped(LongName())
    ensures LongName()[0] == 'a' && LongName()[MaxLength - 2] == 'a'
    ensures LongName()[MaxLength - 1] == ' ' && LongName()[MaxLength] == 'b'
  {
    var name := LongName();
    assert forall i :: 0 <= i < MaxLength - 1 ==> name[i] == 'a';
    assert name[MaxLength - 1] == ' ' && name[MaxLength] == 'b';
    forall i, j | 0 <= i < |name| && j == i + 1 && j < |name|
      ensures !(IsWhitespace(name[i]) && IsWhitespace(name[j]))
    {
      if i < MaxLength - 1 {
        assert name[i] == 'a';
      } else {
        assert name[j] == 'b';
      }
    }
  }

  lemma LongNameIsClean()
    ensures Clean(LongName()) == LongName()
  {
    LongNameShaped();
    CleanKeepsShaped(LongName());
  }

  /** Sanitizing the witness cuts it after the space. */
  lemma LongNameSanitized()
    ensures var r := SanitizeFilename(LongName());
      r == LongName()[..MaxLength] && r[MaxLength - 1] == ' '
  {
    LongNameIsClean();
    LongNameShaped();
    SanitizeCuts(LongName());
  }

  /** A name longer than the limit that cleaning leaves alone is cut to its
      first 200 characters. */
  lemma SanitizeCuts(name: string)
    requires Clean(name) == name && |name| > MaxLength
    ensures SanitizeFilename(name) == name[..MaxLength]
  {
  }

  /** Sanitizing the cut witness again removes the trailing space. */
  lemma LongNameResanitized()
    ensures |SanitizeFilename(LongName()[..MaxLength])| == MaxLength - 1
  {
    var name := LongName();
    LongNameShaped();
    SliceKeepsShape(name, 0, MaxLength);
    assert name[..MaxLength] == name[0..MaxLength];
    ResanitizeDropsLast(name[..MaxLength]);
  }

  /** A shaped name that starts cleanly and ends in a single dot or space
      loses exactly that last character when it is sanitized. */
  lemma ResanitizeDropsLast(r: string)
    requires Shaped(r) && 2 <= |r| <= MaxLength
    requires !IsStripped(r[0]) && IsStripped(r[|r| - 1]) && !IsStripped(r[|r| - 2])
    ensures SanitizeFilename(r) == r[..|r| - 1]
  {
    CleanOfShaped(r);
    assert LeadingStripped(r) == 0;
    StripEndDropsLast(r);
  }

  /** The substitutions leave a shaped name alone, so only the strip acts on it. */
  lemma CleanOfShaped(s: string)
    requires Shaped(s)
    ensures Clean(s) == StripEnd(StripStart(s))
  {
    RemoveForbiddenKeepsClean(s);
    CollapseKeepsSingleSpaces(s);
  }

  /** One trailing dot or space after a character that is neither is all the
      trailing strip removes. */
  lemma StripEndDropsLast(s: string)
    requires |s| >= 2 && IsStripped(s[|s| - 1]) && !IsStripped(s[|s| - 2])
    ensures StripEnd(s) == s[..|s| - 1]
  {
    var q := s[..|s| - 1];
    assert q[|q| - 1] == s[|s| - 2];
    assert TrailingKept(q) == |q|;
  }

  /** The length limit is applied after stripping, so it can leave a trailing
      space, and sanitizing that result again changes it. */
  lemma TruncationCanLeaveTrailingSpace()
    ensures var r := SanitizeFilename(LongName());
      && |r| == MaxLength && r[MaxLength - 1] == ' '
      && SanitizeFilename(r) != r
  {
    LongNameSanitized();
    LongNameResanitized();
  }

  lemma StripKeepsCleanEnds(s: string)
    requires s != [] && !IsStripped(s[0]) && !IsStripped(s[|s| - 1])
    ensures StripStart(s) == s && StripEnd(s) == s
  {
  }

  /** Removal works character by character, so it distributes over concatenation. */
  lemma {:induction false} RemoveForbiddenAppend(a: string, b: string)
    ensures RemoveForbidden(a + b) == RemoveForbidden(a) + RemoveForbidden(b)
  {
    if a == [] {
      assert a + b == b;
    } else {
      assert (a + b)[0] == a[0];
      assert (a + b)[1..] == a[1..] + b;
      RemoveForbiddenAppend(a[1..], b);
    }
  }

  /** Separators and wildcards vanish without leaving a space in their place
      (so `My/Album:Name*` becomes `MyAlbumName`). */
  lemma ForbiddenLeavesNoGap(a: string, c: char, b: string)
    requires IsForbidden(c)
    ensures SanitizeFilename(a + [c] + b) == SanitizeFilename(a + b)
  {
    RemoveForbiddenAppend(a + [c], b);
    RemoveForbiddenAppend(a, [c]);
    RemoveForbiddenAppend(a, b);
    assert RemoveForbidden([c]) == [];
    assert RemoveForbidden(a + [c] + b) == RemoveForbidden(a + b);
  }

  // ---------------------------------------------------------------------
  // What survives: the characters that are not junk, in order
  // ---------------------------------------------------------------------

  /** The characters of `s` that `keep` selects, in order. */
  function Filter(s: string, keep: char -> bool): string
  {
    if s == [] then [] else (if keep(s[0]) then [s[0]] else []) + Filter(s[1..], keep)
  }

  /** A character every stage lets through unchanged. */
  predicate Ordinary(c: char)
  {
    !IsJunk(c)
  }

  lemma {:induction false} FilterAppend(a: string, b: string, keep: char -> bool)
    ensures Filter(a + b, keep) == Filter(a, keep) + Filter(b, keep)
  {
    if a == [] {
      assert a + b == b;
    } else {
      var h := if keep(a[0]) then [a[0]] else [];
      assert (a + b)[0] == a[0] && (a + b)[1..] == a[1..] + b;
      FilterAppend(a[1..], b, keep);
      assert Filter(a + b, keep) == h + Filter(a[1..] + b, keep);
    }
  }

  /** Characters `keep` does not select leave nothing behind. */
  lemma {:induction false} FilterNone(s: string, keep: char -> bool)
    requires forall i :: 0 <= i < |s| ==> !keep(s[i])
    ensures Filter(s, keep) == []
  {
    if s != [] {
      assert forall i :: 0 <= i < |s| - 1 ==> s[1..][i] == s[i + 1];
      FilterNone(s[1..], keep);
    }
  }

  /** Removing forbidden characters loses nothing that `keep` selects, as
      long as `keep` selects no forbidden character. */
  lemma {:induction false} RemoveForbiddenKeepsText(s: string, keep: char -> bool)
    requires forall c :: IsForbidden(c) ==> !keep(c)
    ensures Filter(RemoveForbidden(s), keep) == Filter(s, keep)
  {
    if s != [] {
      RemoveForbiddenKeepsText(s[1..], keep);
      if !IsForbidden(s[0]) {
        assert RemoveForbidden(s) == [s[0]] + RemoveForbidden(s[1..]);
        assert ([s[0]] + RemoveForbidden(s[1..]))[1..] == RemoveForbidden(s[1..]);
      }
    }
  }

  /** Dropping leading whitespace loses nothing that `keep` selects, as long
      as `keep` selects no whitespace. */
  lemma DropWhitespaceKeepsText(s: string, keep: char -> bool)
    requires forall c :: IsWhitespace(c) ==> !keep(c)
    ensures Filter(DropWhitespace(s), keep) == Filter(s, keep)
  {
    var n := |s| - |DropWhitespace(s)|;
    assert forall i :: 0 <= i < n ==> !keep(s[i]);
    SplitKeepsText(s, n, keep);
  }

  /** Selecting with a wide selection and then a narrower one is selecting
      with the narrower one. */
  lemma {:induction false} FilterOfFilter(s: string, wide: char -> bool, narrow: char -> bool)
    requires forall c :: narrow(c) ==> wide(c)
    ensures Filter(Filter(s, wide), narrow) == Filter(s, narrow)
  {
    if s != [] {
      var h := if wide(s[0]) then [s[0]] else [];
      FilterOfFilter(s[1..], wide, narrow);
      FilterAppend(h, Filter(s[1..], wide), narrow);
      if wide(s[0]) {
        FilterCons(s[0], [], narrow);
        assert [s[0]] + [] == [s[0]];
      }
    }
  }

  /** The selection of a string that starts with `c`. */
  lemma FilterCons(c: char, rest: string, keep: char -> bool)
    ensures Filter([c] + rest, keep) == (if keep(c) then [c] else []) + Filter(rest, keep)
  {
    assert ([c] + rest)[0] == c && ([c] + rest)[1..] == rest;
  }

  /** A character put in front of a collapsed text keeps it collapsed, when
      it is a space followed by no whitespace, or is not whitespace at all. */
  lemma ConsShape(c: char, rest: string)
    requires SpacesOnly(rest) && NoDoubleWhitespace(rest)
    requires IsWhitespace(c) ==> c == ' ' && (rest == [] || !IsWhitespace(rest[0]))
    ensures SpacesOnly([c] + rest) && NoDoubleWhitespace([c] + rest)
  {
    var r := [c] + rest;
    assert forall i :: 0 < i < |r| ==> r[i] == rest[i - 1];
  }

  /** Both strips lose nothing that `keep` selects, as long as `keep` selects
      neither dots nor spaces. */
  lemma StripKeepsText(s: string, keep: char -> bool)
    requires forall c :: IsStripped(c) ==> !keep(c)
    ensures Filter(StripStart(s), keep) == Filter(s, keep)
    ensures Filter(StripEnd(s), keep) == Filter(s, keep)
  {
    var n := |s| - |StripStart(s)|;
    SplitKeepsText(s, n, keep);
    SplitKeepsText(s, |StripEnd(s)|, keep);
  }

  /** Cutting off a piece that holds no selected character keeps the selection. */
  lemma SplitKeepsText(s: string, n: nat, keep: char -> bool)
    requires n <= |s|
    ensures (forall i :: 0 <= i < n ==> !keep(s[i])) ==> Filter(s[n..], keep) == Filter(s, keep)
    ensures (forall i :: n <= i < |s| ==> !keep(s[i])) ==> Filter(s[..n], keep) == Filter(s, keep)
  {
    assert s == s[..n] + s[n..];
    FilterAppend(s[..n], s[n..], keep);
    if forall i :: 0 <= i < n ==> !keep(s[i]) {
      FilterNone(s[..n], keep);
    }
    if forall i :: n <= i < |s| ==> !keep(s[i]) {
      FilterNone(s[n..], keep);
    }
  }

  /** Before the length limit, the ordinary characters of the name are all
      still there, in their order, and nothing else ordinary was added. */
  lemma CleanKeepsText(name: string)
    ensures Filter(Clean(name), Ordinary) == Filter(name, Ordinary)
  {
    var x := RemoveForbidden(name);
    var y := CollapseWhitespace(x);
    RemoveForbiddenKeepsText(name, Ordinary);
    FilterOfFilter(x, IsVisible, Ordinary);
    FilterOfFilter(y, IsVisible, Ordinary);
    StripKeepsText(y, Ordinary);
    StripKeepsText(StripStart(y), Ordinary);
  }

  /** A name with at least one ordinary character keeps a leading part of its
      ordinary characters, in order, and all of them when the length limit did
      not cut it. */
  lemma SanitizeKeepsText(name: string)
    requires !AllJunk(name)
    ensures var kept := Filter(SanitizeFilename(name), Ordinary);
      var all := Filter(name, Ordinary);
      && |kept| <= |all| && kept == all[..|kept|]
      && (|Clean(name)| <= MaxLength ==> kept == all)
  {
    SanitizeFallback(name);
    CleanKeepsText(name);
    var c := Clean(name);
    var t := Truncate(c);
    assert SanitizeFilename(name) == t;
    assert c == t + c[|t|..];
    FilterAppend(t, c[|t|..], Ordinary);
  }
}
