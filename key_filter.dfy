/** Which object keys are read at all: `re.match('.*\.csv$', key)`. */
module KeyFilter {

  const Suffix: string := ".csv"

  /** Python's `$` without MULTILINE: the end of the key, or just before a
      newline that ends the key. */
  predicate EndAnchor(key: string, i: int)
  {
    i == |key| || (0 <= i == |key| - 1 && key[i] == '\n')
  }

  /** `.csv` starts at position `i` of the key. */
  predicate SuffixAt(key: string, i: int)
  {
    0 <= i && i + 4 <= |key| && key[i] == '.' && key[i + 1] == 'c' && key[i + 2] == 's' && key[i + 3] == 'v'
  }

  /** What the pattern means: from the start of the key, `.*` runs over
      characters other than a newline, then `.csv` follows literally, then
      the end anchor holds. */
  ghost predicate MatchesCsvPattern(key: string)
  {
    exists k :: 0 <= k && k + 4 <= |key| && '\n' !in key[..k] && key[k..k + 4] == Suffix && EndAnchor(key, k + 4)
  }

  /** The test on line 49, as the matcher tries it: either `\.csv$` matches
      right here, or `.` takes one more character that is not a newline and
      the match goes on from the next position. */
  predicate IsCsvKey(key: string)
    ensures IsCsvKey(key) ==>
      SuffixAt(key, |key| - 4) || (SuffixAt(key, |key| - 5) && key[|key| - 1] == '\n')
    ensures '\n' !in key && SuffixAt(key, |key| - 4) ==> IsCsvKey(key)
    decreases |key|
  {
    if key == Suffix || key == Suffix + "\n" then true
    else key != [] && key[0] != '\n' && IsCsvKey(key[1..])
  }

  /** The matcher accepts exactly the keys the pattern describes. */
  lemma {:induction false} IsCsvKeyMatchesPattern(key: string)
    ensures IsCsvKey(key) <==> MatchesCsvPattern(key)
    decreases |key|
  {
    if key == Suffix || key == Suffix + "\n" {
      assert key[..0] == [] && key[0..4] == Suffix;
    } else if key != [] {
      IsCsvKeyMatchesPattern(key[1..]);
      if IsCsvKey(key) {
        var k :| 0 <= k && k + 4 <= |key[1..]| && '\n' !in key[1..][..k] && key[1..][k..k + 4] == Suffix
                 && EndAnchor(key[1..], k + 4);
        MatchShiftsRight(key, k);
      } else if MatchesCsvPattern(key) {
        var k :| 0 <= k && k + 4 <= |key| && '\n' !in key[..k] && key[k..k + 4] == Suffix && EndAnchor(key, k + 4);
        MatchAtStartIsWhole(key, k);
        MatchShiftsLeft(key, k);
      }
    }
  }

  /** A match of `.csv` at the very start leaves no room for anything but
      the end anchor. */
  lemma MatchAtStartIsWhole(key: string, k: nat)
    requires k + 4 <= |key| && key[k..k + 4] == Suffix && EndAnchor(key, k + 4)
    ensures k == 0 ==> key == Suffix || key == Suffix + "\n"
  {
    if k == 0 {
      assert key[..4] == Suffix;
      if |key| == 4 {
        assert key == key[..4];
      } else {
        assert key == key[..4] + "\n";
      }
    }
  }

  /** A match found after the first character is a match of the whole key
      when that character is not a newline. */
  lemma MatchShiftsRight(key: string, k: nat)
    requires key != [] && key[0] != '\n'
    requires k + 4 <= |key[1..]| && '\n' !in key[1..][..k] && key[1..][k..k + 4] == Suffix && EndAnchor(key[1..], k + 4)
    ensures MatchesCsvPattern(key)
  {
    assert key[..k + 1] == [key[0]] + key[1..][..k];
    assert key[k + 1..k + 5] == key[1..][k..k + 4];
  }

  /** A match that starts after the first character is a match of the rest
      of the key, and the first character is not a newline. */
  lemma MatchShiftsLeft(key: string, k: nat)
    requires 0 < k && k + 4 <= |key| && '\n' !in key[..k] && key[k..k + 4] == Suffix && EndAnchor(key, k + 4)
    ensures key[0] != '\n' && MatchesCsvPattern(key[1..])
  {
    assert key[..k][0] == key[0];
    assert key[1..][..k - 1] == key[..k][1..];
    assert key[1..][k - 1..k + 3] == key[k..k + 4];
    assert EndAnchor(key[1..], k + 3);
  }
}
