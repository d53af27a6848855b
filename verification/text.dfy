/** The two string operations the session registry relies on. */
module Text {
  import opened Optional

  /** `needle` occurs in `hay` starting at index `i`. */
  predicate OccursAt(hay: string, needle: string, i: int)
  {
    0 <= i && i + |needle| <= |hay| && hay[i..i + |needle|] == needle
  }

  /** The first occurrence of `needle` in `hay` at or after `from`. */
  function IndexFrom(hay: string, needle: string, from: nat): (r: Option<nat>)
    ensures r.Some? ==> from <= r.value && OccursAt(hay, needle, r.value)
    ensures r.Some? ==> forall j :: from <= j < r.value ==> !OccursAt(hay, needle, j)
    ensures r.None? ==> forall j :: from <= j ==> !OccursAt(hay, needle, j)
    decreases |hay| - from
  {
    if from + |needle| > |hay| then None
    else if hay[from..from + |needle|] == needle then Some(from)
    else IndexFrom(hay, needle, from + 1)
  }

  /** `String.prototype.includes`: whether `needle` occurs anywhere in `hay`. */
  function Includes(hay: string, needle: string): (b: bool)
    ensures b <==> exists i :: OccursAt(hay, needle, i)
  {
    IndexFrom(hay, needle, 0).Some?
  }

  /**
   * `replace` with a non-global pattern: drops the first occurrence of
   * `pat`, or returns `s` unchanged when there is none. Putting `pat` back
   * where it was restores `s`.
   */
  function StripFirst(s: string, pat: string): (r: string)
    ensures !Includes(s, pat) ==> r == s
    ensures Includes(s, pat) ==> |r| == |s| - |pat|
    ensures Includes(s, pat) ==>
      var i := IndexFrom(s, pat, 0).value;
      i <= |r| && r[..i] + pat + r[i..] == s
  {
    match IndexFrom(s, pat, 0)
    case None => s
    case Some(i) =>
      assert s == s[..i] + s[i..i + |pat|] + s[i + |pat|..];
      s[..i] + s[i + |pat|..]
  }
}
