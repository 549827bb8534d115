/**
  `clean_string(s)` (app.py:71-75): remove every parenthesised group, then
  every bracketed group, then strip surrounding whitespace. The two regular
  expressions `\([^)]*\)` and `\[[^]]*\]` are modelled by one left-to-right
  scanner, RemoveGroups, instantiated with `(` `)` and with `[` `]`.
 */
module CleanString {
  import opened Text

  /** Position of the first `c` in `s`. */
  function IndexOf(s: string, c: char): (k: nat)
    requires c in s
    ensures k < |s| && s[k] == c && c !in s[..k]
  {
    if s[0] == c then 0 else IndexOf(s[1..], c) + 1
  }

  /**
    What `re.sub(open + "[^" + close + "]*" + close, '', s)` returns: at each
    position, an `open` that has a `close` somewhere after it starts a match
    that runs to the first such `close`; the match is deleted and scanning
    resumes after it. Any other character is kept.
   */
  function RemoveGroups(s: string, open: char, close: char): string
    decreases |s|
  {
    if s == [] then []
    else if s[0] == open && close in s[1..] then
      RemoveGroups(s[IndexOf(s[1..], close) + 2..], open, close)
    else
      [s[0]] + RemoveGroups(s[1..], open, close)
  }

  /** No `open` is followed, anywhere later, by a `close`. */
  predicate NoClosedGroup(s: string, open: char, close: char) {
    forall i, j | 0 <= i < j < |s| :: !(s[i] == open && s[j] == close)
  }

  /** Python's `str.strip()`: drop leading whitespace ... */
  function TrimStart(s: string): string
    decreases |s|
  {
    if s != [] && IsSpace(s[0]) then TrimStart(s[1..]) else s
  }

  /** ... and trailing whitespace. */
  function TrimEnd(s: string): string
    decreases |s|
  {
    if s != [] && IsSpace(s[|s| - 1]) then TrimEnd(s[..|s| - 1]) else s
  }

  function Strip(s: string): string {
    TrimEnd(TrimStart(s))
  }

  function Clean(s: string): string {
    Strip(RemoveGroups(RemoveGroups(s, '(', ')'), '[', ']'))
  }

  // ---------------------------------------------------------------------
  // Strip

  /** Dropping leading whitespace leaves the suffix after the maximal
      leading run of whitespace. */
  lemma {:induction false} TrimStartIsMaximal(s: string)
    ensures |TrimStart(s)| <= |s| && TrimStart(s) == s[|s| - |TrimStart(s)|..]
    ensures TrimStart(s) == [] || !IsSpace(TrimStart(s)[0])
    ensures forall k | 0 <= k < |s| - |TrimStart(s)| :: IsSpace(s[k])
    decreases |s|
  {
    if s != [] && IsSpace(s[0]) {
      TrimStartIsMaximal(s[1..]);
      var r := TrimStart(s[1..]);
      assert TrimStart(s) == r;
      forall k | 0 <= k < |s| - |r| ensures IsSpace(s[k]) {
        if k > 0 {
          assert s[k] == s[1..][k - 1];
        }
      }
    }
  }

  /** Dropping trailing whitespace leaves the prefix before the maximal
      trailing run of whitespace. */
  lemma {:induction false} TrimEndIsMaximal(s: string)
    ensures |TrimEnd(s)| <= |s| && TrimEnd(s) == s[..|TrimEnd(s)|]
    ensures TrimEnd(s) == [] || !IsSpace(TrimEnd(s)[|TrimEnd(s)| - 1])
    ensures forall k | |TrimEnd(s)| <= k < |s| :: IsSpace(s[k])
    decreases |s|
  {
    if s != [] && IsSpace(s[|s| - 1]) {
      var t := s[..|s| - 1];
      TrimEndIsMaximal(t);
      var r := TrimEnd(t);
      assert TrimEnd(s) == r;
      assert r == s[..|r|];
      forall k | |r| <= k < |s| ensures IsSpace(s[k]) {
        if k < |s| - 1 {
          assert s[k] == t[k];
        }
      }
    }
  }

  /** s[i..j] is what is left of s once the maximal whitespace runs at both
      ends are cut off. */
  predicate TrimmedTo(s: string, i: int, j: int) {
    && 0 <= i <= j <= |s|
    && NoSurroundingSpace(s[i..j])
    && (forall k | 0 <= k < i :: IsSpace(s[k]))
    && (forall k | j <= k < |s| :: IsSpace(s[k]))
  }

  /** `strip()` returns that slice. */
  lemma StripIsMaximalTrim(s: string)
    ensures NoSurroundingSpace(Strip(s))
    ensures exists i, j :: TrimmedTo(s, i, j) && Strip(s) == s[i..j]
  {
    var i := |s| - |TrimStart(s)|;
    var j := i + |Strip(s)|;
    StripIsSlice(s);
    StripHasNoSurroundingSpace(s);
    TrimStartIsMaximal(s);
    StripCutsSpaceAtEnd(s);
    assert TrimmedTo(s, i, j);
  }

  lemma StripIsSlice(s: string)
    ensures |Strip(s)| <= |TrimStart(s)| <= |s|
    ensures Strip(s) == s[|s| - |TrimStart(s)|..|s| - |TrimStart(s)| + |Strip(s)|]
  {
    var t := TrimStart(s);
    TrimStartIsMaximal(s);
    var r := TrimEnd(t);
    TrimEndIsMaximal(t);
    var i := |s| - |t|;
    assert Strip(s) == r;
    SliceOfSuffix(s, i, |r|);
  }

  lemma SliceOfSuffix(s: string, i: nat, n: nat)
    requires i + n <= |s|
    ensures s[i..][..n] == s[i..i + n]
  {
  }

  lemma StripHasNoSurroundingSpace(s: string)
    ensures NoSurroundingSpace(Strip(s))
  {
    var t := TrimStart(s);
    var r := TrimEnd(t);
    TrimStartIsMaximal(s);
    TrimEndIsMaximal(t);
    if r != [] {
      assert r[0] == t[0];
    }
  }

  lemma StripCutsSpaceAtEnd(s: string)
    ensures |Strip(s)| <= |TrimStart(s)| <= |s|
    ensures forall k | |s| - |TrimStart(s)| + |Strip(s)| <= k < |s| :: IsSpace(s[k])
  {
    var t := TrimStart(s);
    var r := TrimEnd(t);
    var i := |s| - |t|;
    TrimStartIsMaximal(s);
    TrimEndIsMaximal(t);
    forall k | i + |r| <= k < |s| ensures IsSpace(s[k]) {
      assert s[k] == t[k - i];
    }
  }

  lemma StripKeeps(s: string)
    requires NoSurroundingSpace(s)
    ensures Strip(s) == s
  {
  }

  lemma StripIsSubsequence(s: string)
    ensures IsSubsequence(Strip(s), s)
  {
    var t := TrimStart(s);
    TrimStartIsMaximal(s);
    var r := TrimEnd(t);
    TrimEndIsMaximal(t);
    var i := |s| - |t|;
    assert r == s[i..i + |r|] by {
      assert t == s[i..] && r == t[..|r|];
    }
    SliceIsSubsequence(s, i, i + |r|);
  }

  // ---------------------------------------------------------------------
  // RemoveGroups

  lemma {:induction false} RemoveGroupsIsSubsequence(s: string, open: char, close: char)
    ensures IsSubsequence(RemoveGroups(s, open, close), s)
    decreases |s|
  {
    if s == [] {
    } else if s[0] == open && close in s[1..] {
      var n := IndexOf(s[1..], close) + 2;
      RemoveGroupsIsSubsequence(s[n..], open, close);
      SubsequenceOfSuffix(RemoveGroups(s, open, close), s, n);
    } else {
      RemoveGroupsIsSubsequence(s[1..], open, close);
      var r := RemoveGroups(s, open, close);
      assert r[0] == s[0] && r[1..] == RemoveGroups(s[1..], open, close);
    }
  }

  /** After the scan no group is left closed: an `open` survives only when
      no `close` follows it. */
  lemma {:induction false} RemoveGroupsLeavesNoClosedGroup(s: string, open: char, close: char)
    ensures NoClosedGroup(RemoveGroups(s, open, close), open, close)
    decreases |s|
  {
    if s == [] {
    } else if s[0] == open && close in s[1..] {
      RemoveGroupsLeavesNoClosedGroup(s[IndexOf(s[1..], close) + 2..], open, close);
    } else {
      var rest := RemoveGroups(s[1..], open, close);
      RemoveGroupsLeavesNoClosedGroup(s[1..], open, close);
      if s[0] == open && close in rest {
        RemoveGroupsIsSubsequence(s[1..], open, close);
        SubsequenceMembers(rest, s[1..], close);
        assert false;
      }
      var r := RemoveGroups(s, open, close);
      assert r == [s[0]] + rest;
      forall i, j | 0 <= i < j < |r| ensures !(r[i] == open && r[j] == close) {
        if i > 0 {
          assert r[i] == rest[i - 1] && r[j] == rest[j - 1];
        } else {
          assert r[j] == rest[j - 1] && rest[j - 1] in rest;
        }
      }
    }
  }

  /** A string with no closed group passes through the scan unchanged. */
  lemma {:induction false} RemoveGroupsKeeps(s: string, open: char, close: char)
    requires NoClosedGroup(s, open, close)
    ensures RemoveGroups(s, open, close) == s
    decreases |s|
  {
    if s != [] {
      if s[0] == open && close in s[1..] {
        assert false;
      }
      assert NoClosedGroup(s[1..], open, close) by {
        forall i, j | 0 <= i < j < |s| - 1 ensures !(s[1..][i] == open && s[1..][j] == close) {
          assert s[1..][i] == s[i + 1] && s[1..][j] == s[j + 1];
        }
      }
      RemoveGroupsKeeps(s[1..], open, close);
    }
  }

  /** A string with a closed group loses at least one character. */
  lemma {:induction false} RemoveGroupsShrinks(s: string, open: char, close: char)
    requires !NoClosedGroup(s, open, close)
    ensures |RemoveGroups(s, open, close)| < |s|
    decreases |s|
  {
    if s[0] == open && close in s[1..] {
      var n := IndexOf(s[1..], close) + 2;
      RemoveGroupsIsSubsequence(s[n..], open, close);
      SubsequenceLength(RemoveGroups(s[n..], open, close), s[n..]);
    } else {
      var i, j :| 0 <= i < j < |s| && s[i] == open && s[j] == close;
      if i == 0 {
        assert false;
      }
      assert s[1..][i - 1] == open && s[1..][j - 1] == close;
      RemoveGroupsShrinks(s[1..], open, close);
    }
  }

  lemma {:induction false} IndexOfFirst(m: string, c: char, rest: string)
    requires c !in m
    ensures IndexOf(m + [c] + rest, c) == |m|
    decreases |m|
  {
    if m != [] {
      assert (m + [c] + rest)[1..] == m[1..] + [c] + rest;
      IndexOfFirst(m[1..], c, rest);
    }
  }

  /** The scan changes a string exactly when it holds a closed group. */
  lemma RemoveGroupsFixedPoint(s: string, open: char, close: char)
    ensures RemoveGroups(s, open, close) == s <==> NoClosedGroup(s, open, close)
  {
    if NoClosedGroup(s, open, close) {
      RemoveGroupsKeeps(s, open, close);
    } else {
      RemoveGroupsShrinks(s, open, close);
    }
  }

  /** A closed group is deleted together with its delimiters, and the
      scan carries on after it. */
  lemma {:induction false} RemoveGroupsDropsGroup(p: string, m: string, rest: string, open: char, close: char)
    requires open !in p && close !in m
    ensures RemoveGroups(p + [open] + m + [close] + rest, open, close) == p + RemoveGroups(rest, open, close)
    decreases |p|
  {
    var s := p + [open] + m + [close] + rest;
    if p == [] {
      assert s == [open] + m + [close] + rest;
      RemoveGroupsDropsLeadingGroup(m, rest, open, close);
    } else {
      var s' := p[1..] + [open] + m + [close] + rest;
      assert s == [p[0]] + s' && p[0] != open;
      RemoveGroupsKeepsFirst(p[0], s', open, close);
      RemoveGroupsDropsGroup(p[1..], m, rest, open, close);
      ConsAppend(p, RemoveGroups(rest, open, close));
    }
  }

  lemma ConsAppend(p: string, x: string)
    requires p != []
    ensures [p[0]] + (p[1..] + x) == p + x
  {
    assert [p[0]] + p[1..] == p;
  }

  lemma RemoveGroupsKeepsFirst(c: char, t: string, open: char, close: char)
    requires c != open
    ensures RemoveGroups([c] + t, open, close) == [c] + RemoveGroups(t, open, close)
  {
    assert ([c] + t)[1..] == t;
  }

  lemma RemoveGroupsDropsLeadingGroup(m: string, rest: string, open: char, close: char)
    requires close !in m
    ensures RemoveGroups([open] + m + [close] + rest, open, close) == RemoveGroups(rest, open, close)
  {
    var s := [open] + m + [close] + rest;
    var tail := m + [close] + rest;
    assert s[0] == open && s[1..] == tail;
    IndexOfFirst(m, close, rest);
    assert tail[|m|] == close;
    assert s[|m| + 2..] == rest;
  }

  /** Deleting characters cannot create a closed group. */
  lemma {:induction false} NoClosedGroupOfSubsequence(a: string, b: string, open: char, close: char)
    requires IsSubsequence(a, b) && NoClosedGroup(b, open, close)
    ensures NoClosedGroup(a, open, close)
    decreases |b|
  {
    if a == [] {
    } else {
      assert NoClosedGroup(b[1..], open, close) by {
        forall i, j | 0 <= i < j < |b| - 1 ensures !(b[1..][i] == open && b[1..][j] == close) {
          assert b[1..][i] == b[i + 1] && b[1..][j] == b[j + 1];
        }
      }
      if a[0] == b[0] && IsSubsequence(a[1..], b[1..]) {
        NoClosedGroupOfSubsequence(a[1..], b[1..], open, close);
        if a[0] == open && close in a[1..] {
          SubsequenceMembers(a[1..], b[1..], close);
          assert false;
        }
        forall i, j | 0 <= i < j < |a| ensures !(a[i] == open && a[j] == close) {
          if i > 0 {
            assert a[i] == a[1..][i - 1] && a[j] == a[1..][j - 1];
          } else {
            assert a[j] == a[1..][j - 1] && a[1..][j - 1] in a[1..];
          }
        }
      } else {
        NoClosedGroupOfSubsequence(a, b[1..], open, close);
      }
    }
  }

  // ---------------------------------------------------------------------
  // clean_string

  /** The result only deletes characters of the input. */
  lemma CleanIsSubsequence(s: string)
    ensures IsSubsequence(Clean(s), s) && |Clean(s)| <= |s|
  {
    var r1 := RemoveGroups(s, '(', ')');
    var r2 := RemoveGroups(r1, '[', ']');
    RemoveGroupsIsSubsequence(s, '(', ')');
    RemoveGroupsIsSubsequence(r1, '[', ']');
    StripIsSubsequence(r2);
    SubsequenceTransitive(r2, r1, s);
    SubsequenceTransitive(Clean(s), r2, s);
    SubsequenceLength(Clean(s), s);
  }

  /** The result has no whitespace at either end, no `(` followed later by
      `)` and no `[` followed later by `]`. */
  lemma CleanIsClean(s: string)
    ensures NoSurroundingSpace(Clean(s))
    ensures NoClosedGroup(Clean(s), '(', ')')
    ensures NoClosedGroup(Clean(s), '[', ']')
  {
    var r1 := RemoveGroups(s, '(', ')');
    var r2 := RemoveGroups(r1, '[', ']');
    RemoveGroupsLeavesNoClosedGroup(s, '(', ')');
    RemoveGroupsIsSubsequence(r1, '[', ']');
    NoClosedGroupOfSubsequence(r2, r1, '(', ')');
    RemoveGroupsLeavesNoClosedGroup(r1, '[', ']');
    StripIsMaximalTrim(r2);
    StripIsSubsequence(r2);
    NoClosedGroupOfSubsequence(Clean(s), r2, '(', ')');
    NoClosedGroupOfSubsequence(Clean(s), r2, '[', ']');
  }

  /** `clean_string` leaves a string alone exactly when that string has no
      closed group of either kind and no surrounding whitespace. */
  lemma CleanFixedPoint(s: string)
    ensures Clean(s) == s <==>
      NoSurroundingSpace(s) && NoClosedGroup(s, '(', ')') && NoClosedGroup(s, '[', ']')
  {
    if NoSurroundingSpace(s) && NoClosedGroup(s, '(', ')') && NoClosedGroup(s, '[', ']') {
      RemoveGroupsKeeps(s, '(', ')');
      RemoveGroupsKeeps(s, '[', ']');
      StripKeeps(s);
    }
    if Clean(s) == s {
      CleanIsClean(s);
    }
  }

  lemma CleanIdempotent(s: string)
    ensures Clean(Clean(s)) == Clean(s)
  {
    CleanIsClean(s);
    CleanFixedPoint(Clean(s));
  }

  /** A title without any of `()[]` and without surrounding whitespace is
      returned as it is. */
  lemma CleanKeepsPlainTitle(s: string)
    requires '(' !in s && ')' !in s && '[' !in s && ']' !in s
    requires NoSurroundingSpace(s)
    ensures Clean(s) == s
  {
    CleanFixedPoint(s);
  }

  /** Trailing whitespace after a word is cut off exactly. */
  lemma StripTrailing(w: string, sp: string)
    requires w != [] && NoSurroundingSpace(w)
    requires forall k | 0 <= k < |sp| :: IsSpace(sp[k])
    ensures Strip(w + sp) == w
  {
    var s := w + sp;
    assert s[0] == w[0];
    assert TrimStart(s) == s;
    TrimEndIsMaximal(s);
    var r := TrimEnd(s);
    assert s[|w| - 1] == w[|w| - 1];
    assert r == s[..|w|] == w;
  }

  /** The example of the comment at app.py:72. */
  lemma CleanRemastered(s: string)
    requires s == "Song (Remastered)"
    ensures Clean(s) == "Song"
  {
    var p, m := "Song ", "Remastered";
    assert RemoveGroups(s, '(', ')') == p by {
      assert s == p + ['('] + m + [')'] + [];
      RemoveGroupsDropsGroup(p, m, [], '(', ')');
    }
    assert RemoveGroups(p, '[', ']') == p by {
      RemoveGroupsKeeps(p, '[', ']');
    }
    assert Clean(s) == Strip(p);
    SongStripped(p);
  }

  lemma SongStripped(p: string)
    requires p == "Song "
    ensures Strip(p) == "Song"
  {
    var w, sp := "Song", " ";
    assert p == w + sp;
    assert w[0] == 'S' && w[3] == 'g' && sp[0] == ' ';
    StripTrailing(w, sp);
  }

  /** Both kinds of group go, wherever they stand. */
  lemma CleanFeatAndRemix(s: string)
    requires s == "Title [feat. X] (Remix)"
    ensures Clean(s) == "Title"
  {
    var p, q, m := "Title [feat. X] ", "Title  ", "Remix";
    assert RemoveGroups(s, '(', ')') == p by {
      assert s == p + ['('] + m + [')'] + [];
      RemoveGroupsDropsGroup(p, m, [], '(', ')');
    }
    FeatRemoved(p, q);
    assert Clean(s) == Strip(q);
    TitleStripped(q);
  }

  lemma TitleStripped(q: string)
    requires q == "Title  "
    ensures Strip(q) == "Title"
  {
    var w, sp := "Title", "  ";
    assert q == w + sp;
    assert w[0] == 'T' && w[4] == 'e' && sp[0] == ' ' && sp[1] == ' ';
    StripTrailing(w, sp);
  }

  lemma FeatRemoved(p: string, q: string)
    requires p == "Title [feat. X] " && q == "Title  "
    ensures RemoveGroups(p, '[', ']') == q
  {
    var t, f, sp := "Title ", "feat. X", " ";
    assert RemoveGroups(sp, '[', ']') == sp by {
      RemoveGroupsKeeps(sp, '[', ']');
    }
    assert p == t + ['['] + f + [']'] + sp;
    RemoveGroupsDropsGroup(t, f, sp, '[', ']');
    assert t + sp == q;
  }

  /** An opener with no closer after it is not a group and is kept. */
  lemma CleanKeepsUnclosed(s: string)
    requires s == "Live (2020"
    ensures Clean(s) == s
  {
    CleanFixedPoint(s);
  }
}
