/** Normalisation of alert names to snake case. */
module SnakeCase {

  predicate IsUpper(c: char) { 'A' <= c <= 'Z' }
  predicate IsLower(c: char) { 'a' <= c <= 'z' }
  predicate IsAlnum(c: char) { IsUpper(c) || IsLower(c) || '0' <= c <= '9' }

  function LowerChar(c: char): char {
    if IsUpper(c) then c + 32 as char else c
  }

  function Lower(s: string): (r: string)
    ensures |r| == |s|
  {
    seq(|s|, k requires 0 <= k < |s| => LowerChar(s[k]))
  }

  /** An underscore before every capital that is not at the start. */
  function Separated(s: string, atStart: bool): string {
    if s == "" then ""
    else (if !atStart && IsUpper(s[0]) then "_" else "") + [s[0]] + Separated(s[1..], false)
  }

  function DropJunk(s: string): (r: string)
    ensures |r| <= |s|
    ensures r == "" || IsAlnum(r[0])
  {
    if s == "" || IsAlnum(s[0]) then s else DropJunk(s[1..])
  }

  /** Every run of other characters becomes one underscore. */
  function Squeezed(s: string): string
    decreases |s|
  {
    if s == "" then ""
    else if IsAlnum(s[0]) then [s[0]] + Squeezed(s[1..])
    else "_" + Squeezed(DropJunk(s[1..]))
  }

  function StripLeft(s: string): string {
    if s != "" && s[0] == '_' then StripLeft(s[1..]) else s
  }

  function StripRight(s: string): string {
    if s != "" && s[|s| - 1] == '_' then StripRight(s[..|s| - 1]) else s
  }

  function ToSnakeCase(value: string): string {
    Lower(StripRight(StripLeft(Squeezed(Separated(value, true)))))
  }

  /******* Normal form *******/

  /** Letters, digits and underscores, with no two underscores in a row. */
  predicate Spaced(s: string) {
    && (forall k :: 0 <= k < |s| ==> IsAlnum(s[k]) || s[k] == '_')
    && (forall k :: 0 < k < |s| ==> !(s[k - 1] == '_' && s[k] == '_'))
  }

  predicate NormalForm(s: string) {
    && Spaced(s)
    && (forall k :: 0 <= k < |s| ==> !IsUpper(s[k]))
    && (s != "" ==> s[0] != '_' && s[|s| - 1] != '_')
  }

  lemma {:induction false} SqueezedIsSpaced(s: string)
    ensures Spaced(Squeezed(s))
    ensures s != "" && IsAlnum(s[0]) ==> Squeezed(s) != "" && Squeezed(s)[0] != '_'
    decreases |s|
  {
    if s != "" {
      SqueezedIsSpaced(if IsAlnum(s[0]) then s[1..] else DropJunk(s[1..]));
    }
  }

  lemma {:induction false} StripLeftKeeps(s: string)
    requires Spaced(s)
    ensures Spaced(StripLeft(s)) && (StripLeft(s) != "" ==> StripLeft(s)[0] != '_')
  {
    if s != "" && s[0] == '_' {
      StripLeftKeeps(s[1..]);
    }
  }

  lemma {:induction false} StripRightKeeps(s: string)
    requires Spaced(s) && (s != "" ==> s[0] != '_')
    ensures var r := StripRight(s);
      Spaced(r) && (r != "" ==> r[0] != '_' && r[|r| - 1] != '_')
  {
    if s != "" && s[|s| - 1] == '_' {
      StripRightKeeps(s[..|s| - 1]);
    }
  }

  lemma SnakeCaseIsNormal(value: string)
    ensures NormalForm(ToSnakeCase(value))
  {
    var q := Squeezed(Separated(value, true));
    SqueezedIsSpaced(Separated(value, true));
    StripLeftKeeps(q);
    StripRightKeeps(StripLeft(q));
  }

  /** Text in normal form is left as it is, so applying the conversion twice changes nothing. */
  lemma NormalFormIsFixed(s: string)
    requires NormalForm(s)
    ensures ToSnakeCase(s) == s
  {
    SeparatedKeeps(s, true);
    SqueezedKeeps(s);
    StripsKeep(s);
    LowerKeeps(s);
    hide Separated, Squeezed, StripLeft, StripRight, Lower;
  }

  lemma StripsKeep(s: string)
    requires s != "" ==> s[0] != '_' && s[|s| - 1] != '_'
    ensures StripLeft(s) == s && StripRight(s) == s
  {}

  lemma LowerKeeps(s: string)
    requires forall k :: 0 <= k < |s| ==> !IsUpper(s[k])
    ensures Lower(s) == s
  {}

  lemma {:induction false} SeparatedKeeps(s: string, atStart: bool)
    requires forall k :: 0 <= k < |s| ==> !IsUpper(s[k])
    ensures Separated(s, atStart) == s
  {
    if s != "" {
      SeparatedKeeps(s[1..], false);
      assert s == [s[0]] + s[1..];
    }
  }

  lemma {:induction false} SqueezedKeeps(s: string)
    requires Spaced(s) && (s != "" ==> s[|s| - 1] != '_')
    ensures Squeezed(s) == s
  {
    if s != "" {
      assert s == [s[0]] + s[1..];
      if s[0] == '_' { assert IsAlnum(s[1]); }
      SqueezedKeeps(s[1..]);
    }
  }

  /******* Contents *******/

  function Alnums(s: string): string {
    if s == "" then "" else (if IsAlnum(s[0]) then [s[0]] else "") + Alnums(s[1..])
  }

  lemma {:induction false} AlnumsAppend(a: string, b: string)
    ensures Alnums(a + b) == Alnums(a) + Alnums(b)
  {
    if a == "" {
      assert a + b == b;
    } else {
      AlnumsAppend(a[1..], b);
      AlnumsStep(a[0], a[1..] + b);
      AlnumsStep(a[0], a[1..]);
      assert a + b == [a[0]] + (a[1..] + b) && a == [a[0]] + a[1..];
    }
  }

  lemma AlnumsStep(c: char, rest: string)
    ensures Alnums([c] + rest) == (if IsAlnum(c) then [c] else "") + Alnums(rest)
  {
    assert ([c] + rest)[1..] == rest;
  }

  lemma {:induction false} AlnumsOfSeparated(s: string, atStart: bool)
    ensures Alnums(Separated(s, atStart)) == Alnums(s)
  {
    if s != "" {
      AlnumsOfSeparated(s[1..], false);
      AlnumsAppend((if !atStart && IsUpper(s[0]) then "_" else "") + [s[0]], Separated(s[1..], false));
    }
  }

  lemma {:induction false} AlnumsOfDropJunk(s: string)
    ensures Alnums(DropJunk(s)) == Alnums(s)
  {
    if s != "" && !IsAlnum(s[0]) {
      AlnumsOfDropJunk(s[1..]);
    }
  }

  lemma {:induction false} AlnumsOfSqueezed(s: string)
    ensures Alnums(Squeezed(s)) == Alnums(s)
    decreases |s|
  {
    if s != "" {
      if IsAlnum(s[0]) {
        AlnumsOfSqueezed(s[1..]);
      } else {
        AlnumsOfDropJunk(s[1..]);
        AlnumsOfSqueezed(DropJunk(s[1..]));
      }
    }
  }

  lemma {:induction false} AlnumsOfStripLeft(s: string)
    ensures Alnums(StripLeft(s)) == Alnums(s)
  {
    if s != "" && s[0] == '_' {
      AlnumsOfStripLeft(s[1..]);
    }
  }

  lemma {:induction false} AlnumsOfStripRight(s: string)
    ensures Alnums(StripRight(s)) == Alnums(s)
  {
    if s != "" && s[|s| - 1] == '_' {
      AlnumsOfStripRight(s[..|s| - 1]);
      AlnumsAppend(s[..|s| - 1], [s[|s| - 1]]);
      assert s == s[..|s| - 1] + [s[|s| - 1]];
    }
  }

  lemma {:induction false} AlnumsOfLower(s: string)
    ensures Alnums(Lower(s)) == Lower(Alnums(s))
  {
    if s != "" {
      AlnumsOfLower(s[1..]);
      assert Lower(s)[1..] == Lower(s[1..]);
      assert Lower([s[0]] + Alnums(s[1..])) == [LowerChar(s[0])] + Lower(Alnums(s[1..]));
    }
  }

  /** The letters and digits of the result are the lower-cased letters and digits of the input. */
  lemma SnakeCaseKeepsLetters(value: string)
    ensures Alnums(ToSnakeCase(value)) == Lower(Alnums(value))
  {
    var q := Squeezed(Separated(value, true));
    AlnumsOfSeparated(value, true);
    AlnumsOfSqueezed(Separated(value, true));
    AlnumsOfStripLeft(q);
    AlnumsOfStripRight(StripLeft(q));
    AlnumsOfLower(StripRight(StripLeft(q)));
  }

  /** A name normalises to nothing exactly when it has no ASCII letter or digit. */
  lemma SnakeCaseIsEmptyExactly(value: string)
    ensures ToSnakeCase(value) == "" <==> Alnums(value) == ""
  {
    SnakeCaseKeepsLetters(value);
    SnakeCaseIsNormal(value);
    var r := ToSnakeCase(value);
    if r != "" {
      assert IsAlnum(r[0]);
    }
  }

  /******* Word boundaries *******/

  /**
    One pass: letters and digits in lower case, with one underscore between two of them exactly if the second
    is a capital or other characters stand between them.
   */
  function Spelled(s: string, begun: bool, gap: bool): string {
    if s == "" then ""
    else if IsAlnum(s[0]) then
      (if begun && (gap || IsUpper(s[0])) then "_" else "") + [LowerChar(s[0])] + Spelled(s[1..], true, false)
    else Spelled(s[1..], begun, true)
  }

  /** The same, before lower-casing. */
  function Worded(s: string, begun: bool, gap: bool): string {
    if s == "" then ""
    else if IsAlnum(s[0]) then
      (if begun && (gap || IsUpper(s[0])) then "_" else "") + [s[0]] + Worded(s[1..], true, false)
    else Worded(s[1..], begun, true)
  }

  lemma LowerSplits(a: string, b: string)
    ensures Lower(a + b) == Lower(a) + Lower(b)
  {}

  lemma {:induction false} LowerOfWorded(s: string, begun: bool, gap: bool)
    ensures Lower(Worded(s, begun, gap)) == Spelled(s, begun, gap)
  {
    if s != "" {
      if IsAlnum(s[0]) {
        LowerOfWorded(s[1..], true, false);
        var mark := if begun && (gap || IsUpper(s[0])) then "_" else "";
        LowerSplits(mark + [s[0]], Worded(s[1..], true, false));
        assert Lower(mark + [s[0]]) == mark + [LowerChar(s[0])];
      } else {
        LowerOfWorded(s[1..], begun, true);
      }
    }
  }

  lemma {:induction false} StripRightAfter(c: char, s: string)
    requires c != '_'
    ensures StripRight([c] + s) == [c] + StripRight(s)
    decreases |s|
  {
    if s != "" && s[|s| - 1] == '_' {
      assert ([c] + s)[..|s|] == [c] + s[..|s| - 1];
      StripRightAfter(c, s[..|s| - 1]);
    } else {
      assert ([c] + s)[|s|] != '_';
    }
  }

  lemma {:induction false} StripRightAfterMark(c: char, s: string)
    requires c != '_'
    ensures StripRight("_" + ([c] + s)) == "_" + ([c] + StripRight(s))
    decreases |s|
  {
    if s != "" && s[|s| - 1] == '_' {
      assert ("_" + ([c] + s))[..|s| + 1] == "_" + ([c] + s[..|s| - 1]);
      StripRightAfterMark(c, s[..|s| - 1]);
    } else {
      assert ("_" + ([c] + s))[|s| + 1] != '_';
    }
  }

  lemma SqueezedHead(c: char, s: string)
    requires IsAlnum(c)
    ensures Squeezed([c] + s) == [c] + Squeezed(s)
    ensures Squeezed("_" + ([c] + s)) == "_" + ([c] + Squeezed(s)) && DropJunk("_" + ([c] + s)) == [c] + s
  {
    assert ([c] + s)[1..] == s;
    assert ("_" + ([c] + s))[1..] == [c] + s;
  }

  lemma AlnumTail(c: char, mark: string, x: string)
    requires IsAlnum(c) && (mark == "" || mark == "_")
    ensures StripRight(Squeezed(mark + ([c] + x))) == mark + ([c] + StripRight(Squeezed(x)))
    ensures StripRight("_" + Squeezed(DropJunk(mark + ([c] + x)))) == "_" + ([c] + StripRight(Squeezed(x)))
  {
    SqueezedHead(c, x);
    StripRightAfter(c, Squeezed(x));
    StripRightAfterMark(c, Squeezed(x));
    assert "" + ([c] + x) == [c] + x;
    assert "" + ([c] + StripRight(Squeezed(x))) == [c] + StripRight(Squeezed(x));
    hide Squeezed, StripRight;
  }

  lemma JunkTail(c: char, x: string)
    requires !IsAlnum(c)
    ensures Squeezed([c] + x) == "_" + Squeezed(DropJunk(x)) && DropJunk([c] + x) == DropJunk(x)
  {
    assert ([c] + x)[1..] == x;
  }

  lemma SeparatedHead(s: string, atStart: bool)
    requires s != ""
    ensures Separated(s, atStart) ==
      (if !atStart && IsUpper(s[0]) then "_" else "") + ([s[0]] + Separated(s[1..], false))
  {}

  lemma WordedHead(s: string, begun: bool, gap: bool)
    requires s != ""
    ensures Worded(s, begun, gap) ==
      if IsAlnum(s[0])
      then (if begun && (gap || IsUpper(s[0])) then "_" else "") + ([s[0]] + Worded(s[1..], true, false))
      else Worded(s[1..], begun, true)
  {}

  /** What follows a letter or digit, directly or after other characters. */
  lemma {:induction false} TailIsWorded(s: string)
    ensures StripRight(Squeezed(Separated(s, false))) == Worded(s, true, false)
    ensures StripRight("_" + Squeezed(DropJunk(Separated(s, false)))) == Worded(s, true, true)
    decreases |s|
  {
    if s == "" {
      assert "_"[..0] == "";
    } else {
      var rest := Separated(s[1..], false);
      TailIsWorded(s[1..]);
      SeparatedHead(s, false);
      WordedHead(s, true, false);
      WordedHead(s, true, true);
      hide Squeezed, StripRight, DropJunk, Separated, Worded;
      if IsAlnum(s[0]) {
        AlnumTail(s[0], if IsUpper(s[0]) then "_" else "", rest);
      } else {
        assert "" + ([s[0]] + rest) == [s[0]] + rest;
        JunkTail(s[0], rest);
      }
    }
  }

  lemma AlnumHead(c: char, mark: string, x: string)
    requires IsAlnum(c) && (mark == "" || mark == "_")
    ensures StripRight(StripLeft(Squeezed(mark + ([c] + x)))) == [c] + StripRight(Squeezed(x))
    ensures StripRight(StripLeft(Squeezed(DropJunk(mark + ([c] + x))))) == [c] + StripRight(Squeezed(x))
  {
    SqueezedHead(c, x);
    StripRightAfter(c, Squeezed(x));
    assert "" + ([c] + x) == [c] + x;
    assert ("_" + ([c] + Squeezed(x)))[1..] == [c] + Squeezed(x);
    hide Squeezed, StripRight;
  }

  lemma JunkHead(c: char, x: string)
    requires !IsAlnum(c)
    ensures StripLeft(Squeezed([c] + x)) == StripLeft(Squeezed(DropJunk(x))) && DropJunk([c] + x) == DropJunk(x)
  {
    JunkTail(c, x);
    assert ("_" + Squeezed(DropJunk(x)))[1..] == Squeezed(DropJunk(x));
    hide Squeezed;
  }

  /** What comes before any letter or digit leaves nothing. */
  lemma {:induction false} HeadIsWorded(s: string, atStart: bool, gap: bool)
    ensures StripRight(StripLeft(Squeezed(Separated(s, atStart)))) == Worded(s, false, gap)
    ensures StripRight(StripLeft(Squeezed(DropJunk(Separated(s, atStart))))) == Worded(s, false, gap)
    decreases |s|
  {
    if s != "" {
      var rest := Separated(s[1..], false);
      SeparatedHead(s, atStart);
      WordedHead(s, false, gap);
      hide Squeezed, StripRight, StripLeft, DropJunk, Separated, Worded;
      if IsAlnum(s[0]) {
        TailIsWorded(s[1..]);
        AlnumHead(s[0], if !atStart && IsUpper(s[0]) then "_" else "", rest);
      } else {
        HeadIsWorded(s[1..], false, true);
        JunkHead(s[0], rest);
        assert "" + ([s[0]] + rest) == [s[0]] + rest;
      }
    }
  }

  /** The replacements of the source equal the one pass. */
  lemma SnakeCaseSpells(value: string)
    ensures ToSnakeCase(value) == Spelled(value, false, false)
  {
    HeadIsWorded(value, true, false);
    LowerOfWorded(value, false, false);
  }
}
