/**
 * Classification labels have the shape <Species>___<Condition>. This module
 * models JavaScript's `label.split('___')`: the string is cut at every
 * occurrence of the three-underscore delimiter, scanning left to right, and
 * occurrences never overlap (services/plantDiseaseAPI.ts:116 and :139).
 */
module LabelSplit {

  const Delimiter: string := "___"

  /** The delimiter starts at position j of s. */
  predicate DelimiterAt(s: string, j: int) {
    0 <= j && j + 3 <= |s| && s[j] == '_' && s[j + 1] == '_' && s[j + 2] == '_'
  }

  predicate ContainsDelimiter(s: string) {
    exists j :: 0 <= j < |s| && DelimiterAt(s, j)
  }

  lemma DelimiterAtIsDelimiter(s: string, j: int)
    requires 0 <= j && j + 3 <= |s|
    ensures DelimiterAt(s, j) <==> s[j..j + 3] == Delimiter
  {
    if s[j..j + 3] == Delimiter {
      assert s[j] == s[j..j + 3][0];
      assert s[j + 1] == s[j..j + 3][1];
      assert s[j + 2] == s[j..j + 3][2];
    }
  }

  /** The position of the first delimiter at or after `from`, or -1 if there is none. */
  function FirstDelimiter(s: string, from: nat): (k: int)
    requires from <= |s|
    ensures k == -1 || (from <= k && DelimiterAt(s, k))
    ensures forall j :: from <= j < (if k == -1 then |s| else k) ==> !DelimiterAt(s, j)
    decreases |s| - from
  {
    if |s| - from < 3 then -1
    else if DelimiterAt(s, from) then from
    else FirstDelimiter(s, from + 1)
  }

  /** The pieces `s.split('___')` returns, in order. */
  function Split(s: string): (pieces: seq<string>)
    ensures |pieces| >= 1
    ensures forall i :: 0 <= i < |pieces| ==> !ContainsDelimiter(pieces[i])
    ensures FirstDelimiter(s, 0) == -1 ==> pieces == [s]
    ensures FirstDelimiter(s, 0) != -1 ==> pieces[0] == s[..FirstDelimiter(s, 0)]
    // every cut is leftmost: no piece but the last ends in an underscore
    ensures forall i :: 0 <= i < |pieces| - 1 ==> pieces[i] == "" || pieces[i][|pieces[i]| - 1] != '_'
    decreases |s|
  {
    var k := FirstDelimiter(s, 0);
    if k == -1 then
      NoDelimiterBefore(s, |s|);
      [s]
    else
      NoDelimiterBefore(s, k);
      assert k > 0 ==> !DelimiterAt(s, k - 1) && s[..k][k - 1] == s[k - 1];
      [s[..k]] + Split(s[k + 3..])
  }

  /** If no delimiter starts before k, then the prefix s[..k] holds none. */
  lemma NoDelimiterBefore(s: string, k: nat)
    requires k <= |s|
    requires forall j :: 0 <= j < k ==> !DelimiterAt(s, j)
    ensures !ContainsDelimiter(s[..k])
  {
    if ContainsDelimiter(s[..k]) {
      var j :| 0 <= j < k && DelimiterAt(s[..k], j);
      assert DelimiterAt(s, j);
    }
  }

  /** `pieces.join('___')`. */
  function Join(pieces: seq<string>): string {
    if pieces == [] then ""
    else if |pieces| == 1 then pieces[0]
    else pieces[0] + Delimiter + Join(pieces[1..])
  }

  lemma JoinCons(first: string, rest: seq<string>)
    requires rest != []
    ensures Join([first] + rest) == first + Delimiter + Join(rest)
  {
    assert ([first] + rest)[1..] == rest;
  }

  /** Splitting loses nothing: joining the pieces back gives the label. */
  lemma {:induction false} JoinSplit(s: string)
    ensures Join(Split(s)) == s
    decreases |s|
  {
    var k := FirstDelimiter(s, 0);
    if k != -1 {
      var rest := s[k + 3..];
      JoinSplit(rest);
      assert Split(s) == [s[..k]] + Split(rest);
      JoinAroundDelimiter(s, k, Split(rest));
    }
  }

  /** Joining the part before a delimiter with pieces that join to the part after it gives s. */
  lemma JoinAroundDelimiter(s: string, k: int, rest: seq<string>)
    requires DelimiterAt(s, k)
    requires rest != [] && Join(rest) == s[k + 3..]
    ensures Join([s[..k]] + rest) == s
  {
    JoinCons(s[..k], rest);
    DelimiterAtIsDelimiter(s, k);
    assert s == s[..k] + s[k..k + 3] + s[k + 3..];
  }

  /** The label splits into two or more pieces exactly when it holds the delimiter. */
  lemma SplitIntoSeveral(s: string)
    ensures |Split(s)| >= 2 <==> ContainsDelimiter(s)
  {
    var k := FirstDelimiter(s, 0);
    if k != -1 {
      assert 0 <= k < |s| && DelimiterAt(s, k);
    }
  }

  /** A segment the scan finds no delimiter in holds none. */
  lemma NoDelimiterFound(s: string)
    requires FirstDelimiter(s, 0) == -1
    ensures !ContainsDelimiter(s)
  {
  }

  /**
   * A species segment that holds no delimiter and does not end in '_',
   * followed by the delimiter and a condition segment without one, splits
   * back into exactly those two segments.
   */
  lemma SplitPair(species: string, condition: string)
    requires !ContainsDelimiter(species)
    requires species == [] || species[|species| - 1] != '_'
    requires !ContainsDelimiter(condition)
    ensures Split(species + Delimiter + condition) == [species, condition]
  {
    var s := species + Delimiter + condition;
    var n := |species|;
    assert DelimiterAt(s, n);
    forall j | 0 <= j < n ensures !DelimiterAt(s, j) {
      if j + 3 <= n {
        assert s[j..j + 3] == species[j..j + 3];
        assert !DelimiterAt(species, j);
      } else {
        assert s[n - 1] == species[n - 1];
      }
    }
    assert FirstDelimiter(s, 0) == n;
    assert s[..n] == species;
    assert s[n + 3..] == condition;
    assert FirstDelimiter(condition, 0) == -1;
  }
}
