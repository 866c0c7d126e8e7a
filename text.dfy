/**
 * The string operations the pages rely on: `toLowerCase`, `trim` and
 * `includes` of JavaScript strings.
 */
module Text {

  /** ASCII lower-casing of one character; every other character is kept. */
  function LowerChar(c: char): (r: char)
    ensures 'A' <= c <= 'Z' ==> 'a' <= r <= 'z' && r as int - c as int == 32
    ensures !('A' <= c <= 'Z') ==> r == c
  {
    if 'A' <= c <= 'Z' then (c as int + 32) as char else c
  }

  /** `s.toLowerCase()`, restricted to the ASCII letters. */
  function Lower(s: string): (r: string)
    ensures |r| == |s|
    ensures forall i :: 0 <= i < |s| ==> r[i] == LowerChar(s[i])
  {
    seq(|s|, i requires 0 <= i < |s| => LowerChar(s[i]))
  }

  /** Lower-casing a lower-cased string changes nothing. */
  lemma LowerIdempotent(s: string)
    ensures Lower(Lower(s)) == Lower(s)
  {
  }

  /**
   * The code points `String.prototype.trim` removes: the ECMAScript
   * WhiteSpace characters (TAB, VT, FF, SP, NBSP, ZWNBSP and the Zs
   * category) and the LineTerminator characters (LF, CR, LS, PS).
   */
  predicate IsSpace(c: char)
  {
    var n := c as int;
    n == 0x09 || n == 0x0A || n == 0x0B || n == 0x0C || n == 0x0D || n == 0x20
    || n == 0xA0 || n == 0x1680 || (0x2000 <= n <= 0x200A)
    || n == 0x2028 || n == 0x2029 || n == 0x202F || n == 0x205F
    || n == 0x3000 || n == 0xFEFF
  }

  /** Every character of `s` from index `lo` up to `hi` is white space. */
  predicate AllSpace(s: string, lo: int, hi: int)
  {
    forall k :: lo <= k < hi && 0 <= k < |s| ==> IsSpace(s[k])
  }

  /** `s` without its leading white space. */
  function TrimStart(s: string): (r: string)
    ensures |r| <= |s| && r == s[|s| - |r|..]
    ensures AllSpace(s, 0, |s| - |r|)
    ensures r == "" || !IsSpace(r[0])
  {
    if s != "" && IsSpace(s[0]) then
      var r := TrimStart(s[1..]);
      assert forall k :: 1 <= k < |s| - |r| ==> s[k] == s[1..][k - 1];
      r
    else s
  }

  /** `s` without its trailing white space. */
  function TrimEnd(s: string): (r: string)
    ensures |r| <= |s| && r == s[..|r|]
    ensures AllSpace(s, |r|, |s|)
    ensures r == "" || !IsSpace(r[|r| - 1])
  {
    if s != "" && IsSpace(s[|s| - 1]) then
      var r := TrimEnd(s[..|s| - 1]);
      assert forall k :: |r| <= k < |s| - 1 ==> s[k] == s[..|s| - 1][k];
      r
    else s
  }

  /** `r` occurs in `s` at index `i`, and every character of `s` outside it is white space. */
  predicate SpaceAround(s: string, r: string, i: int)
  {
    0 <= i <= |s| - |r| && r == s[i..i + |r|] && AllSpace(s, 0, i) && AllSpace(s, i + |r|, |s|)
  }

  /**
   * Removing leading white space to get `t` and then trailing white space to
   * get `r` leaves white space alone around `r`.
   */
  lemma TrimAround(s: string, t: string, r: string)
    requires |t| <= |s| && t == s[|s| - |t|..] && AllSpace(s, 0, |s| - |t|)
    requires |r| <= |t| && r == t[..|r|] && AllSpace(t, |r|, |t|)
    ensures SpaceAround(s, r, |s| - |t|)
  {
    var i := |s| - |t|;
    assert r == s[i..i + |r|];
    SpaceAfterShift(s, i, |r|);
  }

  /** White space from index `lo` of the suffix `s[i..]` is white space from `i + lo` of `s`. */
  lemma SpaceAfterShift(s: string, i: nat, lo: nat)
    requires i <= |s| && lo <= |s| - i
    requires AllSpace(s[i..], lo, |s| - i)
    ensures AllSpace(s, i + lo, |s|)
  {
    forall k | i + lo <= k < |s|
      ensures IsSpace(s[k])
    {
      assert s[k] == s[i..][k - i];
    }
  }

  /**
   * `s.trim()`: the infix of `s` left once its leading and trailing white
   * space is removed: everything outside it is white space, and it neither
   * starts nor ends with white space (`TrimUnique`: no other infix does both).
   */
  function Trim(s: string): (r: string)
    ensures |r| <= |s|
    ensures exists i :: SpaceAround(s, r, i)
    ensures r == "" || (!IsSpace(r[0]) && !IsSpace(r[|r| - 1]))
  {
    var t := TrimStart(s);
    var r := TrimEnd(t);
    TrimAround(s, t, r);
    r
  }

  /** A character that is not white space lies inside any infix with white space alone around it. */
  lemma NonSpaceInside(s: string, r: string, j: int, x: int)
    requires SpaceAround(s, r, j)
    requires 0 <= x < |s| && !IsSpace(s[x])
    ensures j <= x < j + |r|
  {
  }

  /** An infix with white space alone around it and none at its ends. */
  predicate TrimmedAt(s: string, r: string, j: int)
  {
    SpaceAround(s, r, j) && (r == "" || (!IsSpace(r[0]) && !IsSpace(r[|r| - 1])))
  }

  /** Two such infixes of the same string are equal. */
  lemma TrimmedAtUnique(s: string, r: string, j: int, t: string, i: int)
    requires TrimmedAt(s, r, j) && TrimmedAt(s, t, i)
    ensures r == t
  {
    if r != "" {
      assert s[j] == r[0] && s[j + |r| - 1] == r[|r| - 1];
      NonSpaceInside(s, t, i, j);
      NonSpaceInside(s, t, i, j + |r| - 1);
    }
    if t != "" {
      assert s[i] == t[0] && s[i + |t| - 1] == t[|t| - 1];
      NonSpaceInside(s, r, j, i);
      NonSpaceInside(s, r, j, i + |t| - 1);
    }
  }

  /** Only one infix of `s` has white space alone around it and none at its ends: the trimmed one. */
  lemma TrimUnique(s: string, r: string, j: int)
    requires SpaceAround(s, r, j)
    requires r == "" || (!IsSpace(r[0]) && !IsSpace(r[|r| - 1]))
    ensures r == Trim(s)
  {
    var t := Trim(s);
    var i :| SpaceAround(s, t, i);
    TrimmedAtUnique(s, r, j, t, i);
  }

  /** `s.trim() === ""`. */
  function IsBlank(s: string): (b: bool)
    ensures s == "" ==> b
  {
    BlankIffAllSpace(s);
    Trim(s) == ""
  }

  lemma {:induction false} TrimStartEmpty(s: string)
    ensures TrimStart(s) == "" <==> forall i :: 0 <= i < |s| ==> IsSpace(s[i])
  {
    if s != "" {
      TrimStartEmpty(s[1..]);
      if IsSpace(s[0]) {
        assert forall i :: 1 <= i < |s| ==> s[i] == s[1..][i - 1];
      }
    }
  }

  lemma {:induction false} TrimEndKeepsHead(s: string)
    requires s != "" && !IsSpace(s[0])
    ensures TrimEnd(s) != ""
  {
    if IsSpace(s[|s| - 1]) {
      assert |s| > 1;
      TrimEndKeepsHead(s[..|s| - 1]);
    }
  }

  /** Content is blank exactly when every one of its characters is white space. */
  lemma BlankIffAllSpace(s: string)
    ensures Trim(s) == "" <==> forall i :: 0 <= i < |s| ==> IsSpace(s[i])
  {
    TrimStartEmpty(s);
    var t := TrimStart(s);
    if t != "" {
      TrimEndKeepsHead(t);
    }
  }

  /** `s` starts with `prefix`. */
  predicate StartsWith(s: string, prefix: string)
  {
    |prefix| <= |s| && s[..|prefix|] == prefix
  }

  /** `needle` occurs in `hay` starting at index `i`. */
  predicate OccursAt(hay: string, needle: string, i: int)
  {
    0 <= i <= |hay| - |needle| && hay[i..i + |needle|] == needle
  }

  /** `hay.includes(needle)`, scanning the start positions from left to right. */
  function Contains(hay: string, needle: string): (b: bool)
    ensures StartsWith(hay, needle) ==> b
    ensures b ==> |needle| <= |hay|
    decreases |hay|
  {
    StartsWith(hay, needle) || (hay != "" && Contains(hay[1..], needle))
  }

  /** The scan finds `needle` exactly when it occurs somewhere in `hay`. */
  lemma {:induction false} ContainsIff(hay: string, needle: string)
    ensures Contains(hay, needle) <==> exists i :: OccursAt(hay, needle, i)
  {
    if StartsWith(hay, needle) {
      assert OccursAt(hay, needle, 0);
    } else if hay == "" {
      assert forall i :: !OccursAt(hay, needle, i);
    } else {
      ContainsIff(hay[1..], needle);
      if Contains(hay[1..], needle) {
        var j :| OccursAt(hay[1..], needle, j);
        assert hay[1..][j..j + |needle|] == hay[j + 1..j + 1 + |needle|];
        assert OccursAt(hay, needle, j + 1);
      }
      if i :| OccursAt(hay, needle, i) {
        assert i != 0;
        assert hay[1..][i - 1..i - 1 + |needle|] == hay[i..i + |needle|];
        assert OccursAt(hay[1..], needle, i - 1);
      }
    }
  }
}
