/**
 * Country flags shown next to a product's geo code (functions/functions.py,
 * COUNTRY_FLAGS and get_flag).
 */
module Flags {

  /** U+1F3F3 U+FE0F, the white flag get_flag falls back to. */
  const WhiteFlag: string := "\U{1F3F3}\U{FE0F}"

  predicate IsLetter(c: char) {
    'A' <= c <= 'Z'
  }

  /**
   * The 53 distinct keys of COUNTRY_FLAGS, grouped by first letter (the
   * dict literal writes PL, KR and KW twice, each time with the same flag).
   */
  predicate IsFlagCode(first: char, second: char) {
    match first
    case 'A' => second == 'E' || second == 'R' || second == 'T' || second == 'U'
    case 'B' => second == 'E' || second == 'G' || second == 'R'
    case 'C' => second == 'A' || second == 'H' || second == 'N' || second == 'Z'
    case 'D' => second == 'E' || second == 'K'
    case 'E' => second == 'G' || second == 'S'
    case 'F' => second == 'I' || second == 'R'
    case 'G' => second == 'B' || second == 'R'
    case 'H' => second == 'U'
    case 'I' => second == 'D' || second == 'E' || second == 'N' || second == 'S' || second == 'T'
    case 'J' => second == 'P'
    case 'K' => second == 'R' || second == 'W'
    case 'L' => second == 'K'
    case 'M' => second == 'D' || second == 'X' || second == 'Y'
    case 'N' => second == 'G' || second == 'L' || second == 'O' || second == 'Z'
    case 'O' => second == 'M'
    case 'P' => second == 'H' || second == 'L' || second == 'T'
    case 'Q' => second == 'A'
    case 'R' => second == 'O' || second == 'U'
    case 'S' => second == 'A' || second == 'E' || second == 'G' || second == 'K'
    case 'T' => second == 'H' || second == 'R'
    case 'U' => second == 'A' || second == 'S'
    case 'V' => second == 'N'
    case 'Z' => second == 'A'
    case _ => false
  }

  /** Every key is a pair of upper-case letters. */
  lemma FlagCodesAreLetters(first: char, second: char)
    requires IsFlagCode(first, second)
    ensures IsLetter(first) && IsLetter(second)
  {
  }

  /** The Unicode regional indicator symbol for an upper-case letter. */
  function RegionalIndicator(c: char): char
    requires IsLetter(c)
  {
    (0x1F1E6 + ((c as int) - ('A' as int))) as char
  }

  /**
   * COUNTRY_FLAGS: every value in the source is the pair of regional
   * indicators of its key's two letters, which Unicode renders as that
   * country's flag.
   */
  function CountryFlags(): (flags: map<string, string>)
    ensures forall geo :: geo in flags <==> |geo| == 2 && IsFlagCode(geo[0], geo[1])
  {
    var codes := set a: char, b: char | IsLetter(a) && IsLetter(b) && IsFlagCode(a, b) :: [a, b];
    assert forall geo :: |geo| == 2 && IsFlagCode(geo[0], geo[1]) ==> geo in codes by {
      forall geo | |geo| == 2 && IsFlagCode(geo[0], geo[1]) ensures geo in codes {
        FlagCodesAreLetters(geo[0], geo[1]);
        assert geo == [geo[0], geo[1]];
      }
    }
    map geo | geo in codes :: [RegionalIndicator(geo[0]), RegionalIndicator(geo[1])]
  }

  /** get_flag: the flag of a known geo code, the white flag otherwise. */
  function GetFlag(geo: string): (flag: string)
    ensures geo in CountryFlags() ==>
      IsLetter(geo[0]) && IsLetter(geo[1]) && flag == [RegionalIndicator(geo[0]), RegionalIndicator(geo[1])]
  {
    if geo in CountryFlags() then
      FlagCodesAreLetters(geo[0], geo[1]);
      assert geo == [geo[0], geo[1]];
      CountryFlags()[geo]
    else WhiteFlag
  }

  /** A listed code gets the regional indicators of its letters, any other text the white flag. */
  lemma GetFlagCases(geo: string)
    ensures |geo| == 2 && IsFlagCode(geo[0], geo[1]) ==>
      IsLetter(geo[0]) && IsLetter(geo[1]) && GetFlag(geo) == [RegionalIndicator(geo[0]), RegionalIndicator(geo[1])]
    ensures !(|geo| == 2 && IsFlagCode(geo[0], geo[1])) ==> GetFlag(geo) == WhiteFlag
  {
    if |geo| == 2 && IsFlagCode(geo[0], geo[1]) {
      FlagCodesAreLetters(geo[0], geo[1]);
      assert geo == [geo[0], geo[1]];
    }
  }

  /** get_flag falls back to the white flag exactly for codes the table lacks. */
  lemma WhiteFlagOnlyForUnknown(geo: string)
    ensures GetFlag(geo) == WhiteFlag <==> geo !in CountryFlags()
  {
    GetFlagCases(geo);
    if geo in CountryFlags() {
      assert GetFlag(geo)[0] != WhiteFlag[0];
    }
  }

  /** Two of the repeated keys and a code the table lacks. */
  lemma GetFlagExamples()
    ensures GetFlag("PL") == "\U{1F1F5}\U{1F1F1}"
    ensures GetFlag("KW") == "\U{1F1F0}\U{1F1FC}"
    ensures GetFlag("XX") == WhiteFlag
  {
    var pl, kw, xx := "PL", "KW", "XX";
    assert pl in CountryFlags() && kw in CountryFlags() && xx !in CountryFlags();
    assert RegionalIndicator('P') == '\U{1F1F5}' && RegionalIndicator('L') == '\U{1F1F1}';
    assert RegionalIndicator('K') == '\U{1F1F0}' && RegionalIndicator('W') == '\U{1F1FC}';
  }
}
