/**
 * The YouTube link of a launch post: the first match of the regular expression
 * `\[ \]\((https:\/\/www\.youtube\.com\/watch\?v=[^\)]+)\)` in the post's body, as a leftmost scan.
 */
module Youtube {
  import opened Wrappers

  /** The literal `[ ](` that opens a match. */
  const Opening: string := "[ ]("
  /** The literal start of the captured URL. */
  const WatchPrefix: string := "https://www.youtube.com/watch?v="
  /** Everything a match starts with before the `[^)]+` run. */
  const Lead: string := Opening + WatchPrefix

  /**
   * `body[i..j]` matches the regular expression: the lead, one or more characters other than `)`,
   * then `)`.
   */
  ghost predicate IsMatch(body: string, i: int, j: int)
  {
    && 0 <= i && i + |Lead| + 2 <= j <= |body|
    && body[i..i + |Lead|] == Lead
    && body[j - 1] == ')'
    && forall k :: i + |Lead| <= k < j - 1 ==> body[k] != ')'
  }

  /** The index of the first `)` at or after `from`. */
  function CloseParen(body: string, from: nat): (r: Option<nat>)
    requires from <= |body|
    ensures r.Some? ==> from <= r.value < |body| && body[r.value] == ')'
    ensures r.Some? ==> forall k :: from <= k < r.value ==> body[k] != ')'
    ensures r.None? ==> forall k :: from <= k < |body| ==> body[k] != ')'
    decreases |body| - from
  {
    if from == |body| then None
    else if body[from] == ')' then Some(from)
    else CloseParen(body, from + 1)
  }

  /** The end of the match that starts at `i`, if one does. */
  function MatchEnd(body: string, i: nat): (r: Option<nat>)
    ensures r.Some? ==> IsMatch(body, i, r.value)
    ensures r.None? ==> forall j :: !IsMatch(body, i, j)
  {
    if i + |Lead| <= |body| && body[i..i + |Lead|] == Lead then
      match CloseParen(body, i + |Lead|)
      case Some(c) =>
        if c > i + |Lead| then Some(c + 1)
        else
          assert body[c] == ')';
          None
      case None => None
    else None
  }

  /** The leftmost match starting at or after `from`. */
  function FirstMatch(body: string, from: nat): (r: Option<(nat, nat)>)
    ensures r.Some? ==> from <= r.value.0 && IsMatch(body, r.value.0, r.value.1)
    ensures r.Some? ==> forall i, j :: from <= i < r.value.0 ==> !IsMatch(body, i, j)
    ensures r.None? ==> forall i, j :: from <= i ==> !IsMatch(body, i, j)
    decreases |body| - from
  {
    if from + |Lead| + 2 > |body| then None
    else
      match MatchEnd(body, from)
      case Some(j) => Some((from, j))
      case None => FirstMatch(body, from + 1)
  }

  /** `matches ? matches[1] : undefined`: the captured URL of the leftmost match. */
  function ExtractLink(body: string): (r: Option<string>)
    ensures r.None? <==> forall i, j :: !IsMatch(body, i, j)
    ensures r.Some? ==> exists i, j :: && IsMatch(body, i, j)
                                      && r.value == body[i + |Opening|..j - 1]
                                      && forall i', j' :: IsMatch(body, i', j') ==> i <= i'
    ensures r.Some? ==> WatchPrefix < r.value && ')' !in r.value
  {
    match FirstMatch(body, 0)
    case None => None
    case Some((i, j)) =>
      CapturedLink(body, i, j);
      Some(body[i + |Opening|..j - 1])
  }

  /** The captured group starts with the watch URL, has at least one more character and no `)`. */
  lemma CapturedLink(body: string, i: int, j: int)
    requires IsMatch(body, i, j)
    ensures WatchPrefix < body[i + |Opening|..j - 1] && ')' !in body[i + |Opening|..j - 1]
  {
    var link := body[i + |Opening|..j - 1];
    assert |Opening| == 4 && |WatchPrefix| == 32 && |Lead| == 36;
    assert link[..|WatchPrefix|] == body[i + |Opening|..i + |Lead|];
    assert body[i + |Opening|..i + |Lead|] == Lead[|Opening|..];
    assert Lead[|Opening|..] == WatchPrefix;
    assert forall k :: 0 <= k < |link| ==> link[k] == body[i + |Opening| + k];
  }

  /** A match is determined by where it starts: it ends at the first `)` after the lead. */
  lemma MatchEndUnique(body: string, i: int, j: int, j': int)
    requires IsMatch(body, i, j) && IsMatch(body, i, j')
    ensures j == j'
  {
    if j < j' {
      assert false;
    } else if j' < j {
      assert false;
    }
  }
}
