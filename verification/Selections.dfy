/** Component selections as the installer spells them: names joined by commas
    (component_lifecycle.py, bootstrap_install.py). */
module Selections {
  import opened Prelude

  const COMMA := ','

  /** The pieces between the commas, as the library splits: there is always at least one. */
  function Split(s: string): (r: seq<string>)
    ensures |r| >= 1
  {
    if s == "" then [""]
    else
      var before := Split(s[..|s| - 1]);
      if s[|s| - 1] == COMMA then before + [""]
      else before[..|before| - 1] + [before[|before| - 1] + [s[|s| - 1]]]
  }

  function Join(names: seq<string>): string {
    if names == [] then ""
    else if |names| == 1 then names[0]
    else Join(names[..|names| - 1]) + [COMMA] + names[|names| - 1]
  }

  predicate CommaFree(names: seq<string>) { forall i | 0 <= i < |names| :: COMMA !in names[i] }

  lemma JoinMore(names: seq<string>, last: string)
    requires names != []
    ensures Join(names + [last]) == Join(names) + [COMMA] + last
  {
    assert (names + [last])[..|names|] == names;
  }

  lemma JoinExtended(before: seq<string>, last: string, c: char)
    ensures Join(before + [last + [c]]) == Join(before + [last]) + [c]
  {
    if before == [] {
      assert before + [last + [c]] == [last + [c]] && before + [last] == [last];
    } else {
      JoinMore(before, last);
      JoinMore(before, last + [c]);
      hide Join;
      assert Join(before) + [COMMA] + (last + [c]) == Join(before) + [COMMA] + last + [c];
    }
  }

  /** Splitting and joining again gives the text back, whatever it is. */
  lemma {:induction false} JoinSplit(s: string)
    ensures Join(Split(s)) == s
  {
    if s != "" {
      var n := |s| - 1;
      JoinSplit(s[..n]);
      assert s == s[..n] + [s[n]];
      if s[n] == COMMA {
        JoinMore(Split(s[..n]), "");
      } else {
        var before := Split(s[..n]);
        assert before == before[..|before| - 1] + [before[|before| - 1]];
        JoinExtended(before[..|before| - 1], before[|before| - 1], s[n]);
      }
    }
  }

  /** The pieces with a word appended to the last of them. */
  function Extended(pieces: seq<string>, word: string): seq<string>
    requires pieces != []
  {
    pieces[..|pieces| - 1] + [pieces[|pieces| - 1] + word]
  }

  lemma ExtendedTwice(pieces: seq<string>, a: string, b: string)
    requires pieces != []
    ensures Extended(Extended(pieces, a), b) == Extended(pieces, a + b)
  {
    var last := pieces[|pieces| - 1];
    assert last + a + b == last + (a + b);
    assert Extended(pieces, a)[..|pieces| - 1] == pieces[..|pieces| - 1];
  }

  lemma ExtendedByNothing(pieces: seq<string>)
    requires pieces != []
    ensures Extended(pieces, "") == pieces
  {
    var last := pieces[|pieces| - 1];
    assert last + "" == last;
  }

  lemma SplitLetter(s: string, c: char)
    requires c != COMMA
    ensures Split(s + [c]) == Extended(Split(s), [c])
  {
    assert (s + [c])[..|s|] == s;
  }

  lemma {:induction false} SplitAppend(s: string, word: string)
    requires COMMA !in word
    ensures Split(s + word) == Extended(Split(s), word)
  {
    hide Split; hide Extended;
    if word == "" {
      assert s + word == s;
      ExtendedByNothing(Split(s));
    } else {
      var before, last := word[..|word| - 1], word[|word| - 1];
      assert word == before + [last] && last in word;
      SplitAppend(s, before);
      SplitLetter(s + before, last);
      assert s + word == s + before + [last];
      ExtendedTwice(Split(s), before, [last]);
    }
  }

  /** And comma-free names survive joining and splitting. */
  lemma {:induction false} SplitJoin(names: seq<string>)
    requires names != [] && CommaFree(names)
    ensures Split(Join(names)) == names
  {
    var before, last := names[..|names| - 1], names[|names| - 1];
    assert names == before + [last];
    if before == [] {
      SplitAppend("", last);
      assert "" + last == last;
    } else {
      SplitJoin(before);
      var s := Join(before) + [COMMA];
      assert s[..|s| - 1] == Join(before);
      SplitAppend(s, last);
    }
  }

  /* ---- the valid selections ---- */

  const BASE := "base"
  const MEDIAPIPE := "mediapipe"
  const PEAR := "pear"

  /** The selections with the optional components chosen or not, base always first. */
  function Selection(mediapipe: bool, pear: bool): seq<string> {
    [BASE] + (if mediapipe then [MEDIAPIPE] else []) + (if pear then [PEAR] else [])
  }

  const VALID := ["base", "base,mediapipe", "base,pear", "base,mediapipe,pear"]

  function ParseSelected(components: string): Result<seq<string>> {
    var selected := Split(components);
    if Join(selected) in VALID then Ok(selected) else Err("invalid component selection")
  }

  predicate IsSelection(names: seq<string>) {
    exists mediapipe, pear :: names == Selection(mediapipe, pear)
  }

  lemma Spelled()
    ensures Join(Selection(false, false)) == "base" && Join(Selection(true, false)) == "base,mediapipe"
    ensures Join(Selection(false, true)) == "base,pear" && Join(Selection(true, true)) == "base,mediapipe,pear"
  {
    assert Selection(true, true)[..2] == [BASE, MEDIAPIPE];
    JoinMore([BASE], MEDIAPIPE);
    JoinMore([BASE], PEAR);
    JoinMore([BASE, MEDIAPIPE], PEAR);
    assert [BASE] + [MEDIAPIPE] == Selection(true, false) && [BASE] + [PEAR] == Selection(false, true);
    assert [BASE, MEDIAPIPE] + [PEAR] == Selection(true, true);
  }

  lemma SelectionSplits(mediapipe: bool, pear: bool)
    ensures Split(Join(Selection(mediapipe, pear))) == Selection(mediapipe, pear)
  {
    assert CommaFree([BASE, MEDIAPIPE, PEAR]);
    SplitJoin(Selection(mediapipe, pear));
  }

  /** Parsing accepts exactly the four spellings, and yields base followed by the optional
      components chosen. */
  lemma ParseExactly(components: string)
    ensures ParseSelected(components).Ok? <==> components in VALID
    ensures ParseSelected(components).Ok? ==> IsSelection(ParseSelected(components).value)
  {
    hide Split; hide Join; hide Selection;
    JoinSplit(components);
    if components in VALID {
      var mediapipe, pear := Spelling(components);
      SelectionSplits(mediapipe, pear);
    }
  }

  lemma Spelling(components: string) returns (mediapipe: bool, pear: bool)
    requires components in VALID
    ensures components == Join(Selection(mediapipe, pear))
  {
    hide Join; hide Selection;
    Spelled();
    mediapipe := components == "base,mediapipe" || components == "base,mediapipe,pear";
    pear := components == "base,pear" || components == "base,mediapipe,pear";
  }

  /** A selection spelled out is parsed as itself. */
  lemma ParseJoin(names: seq<string>)
    requires IsSelection(names)
    ensures ParseSelected(Join(names)) == Ok(names)
  {
    var mediapipe, pear :| names == Selection(mediapipe, pear);
    SelectionSplits(mediapipe, pear);
    Spelled();
  }
}
