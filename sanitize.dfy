/** pdf_to_clean_html: the rendered table markup with every ` border="1"` and
    then every ` style="text-align: right;"` removed, each by one
    left-to-right pass of str.replace with the empty string. */
module Sanitize {

  const Border: string := " border=\"1\""
  const RightAlign: string := " style=\"text-align: right;\""

  predicate OccursAt(s: string, pat: string, i: int)
  {
    0 <= i && i + |pat| <= |s| && s[i..i + |pat|] == pat
  }

  predicate Contains(s: string, pat: string)
  {
    exists i :: 0 <= i <= |s| && OccursAt(s, pat, i)
  }

  /** s.replace(pat, ""): scan from the left, drop each match and resume
      right after it. */
  function DeleteAll(s: string, pat: string): (r: string)
    requires pat != ""
    ensures |r| <= |s|
    decreases |s|
  {
    if |s| < |pat| then s
    else if s[..|pat|] == pat then DeleteAll(s[|pat|..], pat)
    else [s[0]] + DeleteAll(s[1..], pat)
  }

  /** s.split(pat): the text between the matches that the same scan finds. */
  function Split(s: string, pat: string): (r: seq<string>)
    requires pat != ""
    ensures |r| >= 1
    decreases |s|
  {
    if |s| < |pat| then [s]
    else if s[..|pat|] == pat then [""] + Split(s[|pat|..], pat)
    else
      var t := Split(s[1..], pat);
      [[s[0]] + t[0]] + t[1..]
  }

  function Concat(pieces: seq<string>): string
  {
    if pieces == [] then "" else pieces[0] + Concat(pieces[1..])
  }

  /** sep.join(pieces) */
  function Join(pieces: seq<string>, sep: string): string
    requires |pieces| >= 1
  {
    if |pieces| == 1 then pieces[0] else pieces[0] + sep + Join(pieces[1..], sep)
  }

  /** The markup after pdf_to_clean_html. */
  function CleanHtml(html: string): string
  {
    DeleteAll(DeleteAll(html, Border), RightAlign)
  }

  // ----- the split is a faithful decomposition -----

  /** Deleting every match keeps exactly the text between the matches. */
  lemma {:induction false} DeleteAllIsConcatOfSplit(s: string, pat: string)
    requires pat != ""
    ensures DeleteAll(s, pat) == Concat(Split(s, pat))
    decreases |s|
  {
    if |s| < |pat| {
      assert Concat([s]) == s + Concat([]);
    } else if s[..|pat|] == pat {
      var r := Split(s[|pat|..], pat);
      DeleteAllIsConcatOfSplit(s[|pat|..], pat);
      assert ([""] + r)[1..] == r;
    } else {
      var t := Split(s[1..], pat);
      DeleteAllIsConcatOfSplit(s[1..], pat);
      var r := [[s[0]] + t[0]] + t[1..];
      assert r[1..] == t[1..];
      assert Concat(t) == t[0] + Concat(t[1..]);
    }
  }

  /** Putting the matches back between the pieces gives the input again. */
  lemma {:induction false} JoinSplit(s: string, pat: string)
    requires pat != ""
    ensures Join(Split(s, pat), pat) == s
    decreases |s|
  {
    if |s| < |pat| {
    } else if s[..|pat|] == pat {
      var r := Split(s[|pat|..], pat);
      JoinSplit(s[|pat|..], pat);
      assert ([""] + r)[1..] == r;
      assert s == s[..|pat|] + s[|pat|..];
    } else {
      var t := Split(s[1..], pat);
      JoinSplit(s[1..], pat);
      var r := [[s[0]] + t[0]] + t[1..];
      assert r[1..] == t[1..];
      assert s == [s[0]] + s[1..];
      if |t| > 1 {
        assert Join(t, pat) == t[0] + pat + Join(t[1..], pat);
      }
    }
  }

  lemma OccursAtShift(s: string, pat: string, i: int)
    requires |s| > 0 && i >= 0
    ensures OccursAt(s, pat, i + 1) <==> OccursAt(s[1..], pat, i)
  {
    if i + 1 + |pat| <= |s| {
      assert s[i + 1..i + 1 + |pat|] == s[1..][i..i + |pat|];
    }
  }

  /** The scan is left to right: no match starts inside the first piece. */
  lemma {:induction false} SplitFirstPieceHasNoMatch(s: string, pat: string)
    requires pat != ""
    ensures forall i :: 0 <= i < |Split(s, pat)[0]| ==> !OccursAt(s, pat, i)
    decreases |s|
  {
    if |s| >= |pat| && s[..|pat|] != pat {
      var t := Split(s[1..], pat);
      SplitFirstPieceHasNoMatch(s[1..], pat);
      assert Split(s, pat)[0] == [s[0]] + t[0];
      forall i | 0 <= i < |Split(s, pat)[0]| ensures !OccursAt(s, pat, i) {
        if i > 0 {
          OccursAtShift(s, pat, i - 1);
        } else {
          assert s[..|pat|] == s[0..|pat|];
        }
      }
    }
  }

  /** There is more than one piece exactly when the pattern occurs. */
  lemma {:induction false} SplitSingleIffNoMatch(s: string, pat: string)
    requires pat != ""
    ensures |Split(s, pat)| == 1 <==> !Contains(s, pat)
    decreases |s|
  {
    if |s| < |pat| {
      assert !Contains(s, pat);
    } else if s[..|pat|] == pat {
      assert OccursAt(s, pat, 0);
    } else {
      SplitSingleIffNoMatch(s[1..], pat);
      assert |Split(s, pat)| == |Split(s[1..], pat)|;
      if Contains(s, pat) {
        var i :| 0 <= i <= |s| && OccursAt(s, pat, i);
        assert s[..|pat|] == s[0..|pat|];
        OccursAtShift(s, pat, i - 1);
        assert Contains(s[1..], pat);
      }
      if Contains(s[1..], pat) {
        var i :| 0 <= i <= |s[1..]| && OccursAt(s[1..], pat, i);
        OccursAtShift(s, pat, i);
        assert Contains(s, pat);
      }
    }
  }

  /** The first piece ends at the leftmost match, and the other pieces are the
      split of the text after it. */
  lemma {:induction false} SplitAfterFirstMatch(s: string, pat: string)
    requires pat != ""
    requires |Split(s, pat)| > 1
    ensures OccursAt(s, pat, |Split(s, pat)[0]|)
    ensures Split(s[|Split(s, pat)[0]| + |pat|..], pat) == Split(s, pat)[1..]
    decreases |s|
  {
    var r := Split(s, pat);
    if s[..|pat|] == pat {
      var rest := Split(s[|pat|..], pat);
      assert r == [""] + rest;
      assert r[1..] == rest;
      assert s[..|pat|] == s[0..|pat|];
    } else {
      var t := Split(s[1..], pat);
      assert r[0] == [s[0]] + t[0] && r[1..] == t[1..] && |r| == |t|;
      SplitAfterFirstMatch(s[1..], pat);
      OccursAtShift(s, pat, |t[0]|);
      assert s[|r[0]| + |pat|..] == s[1..][|t[0]| + |pat|..];
    }
  }

  /** Markup without the pattern passes through unchanged. */
  lemma DeleteAllWithoutMatch(s: string, pat: string)
    requires pat != ""
    requires !Contains(s, pat)
    ensures DeleteAll(s, pat) == s
  {
    SplitSingleIffNoMatch(s, pat);
    JoinSplit(s, pat);
    DeleteAllIsConcatOfSplit(s, pat);
    var r := Split(s, pat);
    assert r == [s];
    assert Concat(r) == s + Concat([]);
  }

  /** Markup with neither attribute comes back unchanged. */
  lemma CleanHtmlWithoutAttributes(html: string)
    requires !Contains(html, Border) && !Contains(html, RightAlign)
    ensures CleanHtml(html) == html
  {
    DeleteAllWithoutMatch(html, Border);
    DeleteAllWithoutMatch(html, RightAlign);
  }

  /** One step of the scan where no match starts. */
  lemma DeleteAllSkipsChar(s: string, pat: string)
    requires pat != "" && |s| >= |pat| && s[..|pat|] != pat
    ensures DeleteAll(s, pat) == [s[0]] + DeleteAll(s[1..], pat)
  {
  }

  /** Deleting a border attribute can join its neighbours into a new one. */
  lemma BorderPassJoinsNeighbours()
    ensures DeleteAll(" bor" + Border + "der=\"1\"", Border) == Border
  {
    var tail := "der=\"1\"";
    var html := " bor" + Border + tail;
    assert DeleteAll(Border + tail, Border) == tail by {
      assert (Border + tail)[..|Border|] == Border;
      assert (Border + tail)[|Border|..] == tail;
    }
    assert html[4..] == Border + tail;
    assert html[3..][1..] == html[4..];
    assert html[2..][1..] == html[3..];
    assert html[1..][1..] == html[2..];
    assert html[3..][..|Border|][0] == 'r' != Border[0];
    DeleteAllSkipsChar(html[3..], Border);
    DeleteAllSkipsChar(html[2..], Border);
    DeleteAllSkipsChar(html[1..], Border);
    assert html[..|Border|][4] == ' ' != Border[4];
    DeleteAllSkipsChar(html, Border);
  }

  /** A single pass does not guarantee the result is free of the attribute:
      markup whose text surrounds a border attribute with the two halves of
      another comes out as exactly one border attribute. */
  lemma CleanHtmlCanLeaveBorder()
    ensures var html := " bor" + Border + "der=\"1\"";
      Contains(html, Border) && CleanHtml(html) == Border && Contains(CleanHtml(html), Border)
  {
    var html := " bor" + Border + "der=\"1\"";
    assert OccursAt(html, Border, 4);
    assert OccursAt(Border, Border, 0);
    BorderPassJoinsNeighbours();
  }
}
