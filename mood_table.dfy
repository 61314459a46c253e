/**
 * The static mood-to-artist table of main.py, the lower-casing of the detected
 * emotion and the random pick of one candidate artist.
 */
module MoodTable {
  import opened Common

  /** The candidate artists for each supported (lower-case) emotion label. */
  const MoodArtists: map<string, seq<string>> := map[
    "happy" := ["Dua Lipa", "Bruno Mars"],
    "sad" := ["Adele", "Billie Eilish"],
    "angry" := ["Rage Against the Machine", "Eminem"],
    "surprised" := ["David Bowie", "ROSAL\U{C3}A"],
    "fearful" := ["Halsey", "Lorde"],
    "disgusted" := ["Nirvana", "Nine Inch Nails"],
    "neutral" := ["John Mayer", "Ed Sheeran"]
  ]

  /** The seven supported labels. */
  const Moods: set<string> := {"happy", "sad", "angry", "surprised", "fearful", "disgusted", "neutral"}

  /** Every supported label has at least one candidate, so a pick for a known mood never fails. */
  lemma TableKeysAndNonEmpty()
    ensures MoodArtists.Keys == Moods
    ensures forall m :: m in MoodArtists ==> |MoodArtists[m]| > 0
  {
  }

  /** The candidates of the happy mood. */
  lemma HappyCandidates()
    ensures "happy" in MoodArtists && MoodArtists["happy"] == ["Dua Lipa", "Bruno Mars"]
  {
  }

  predicate IsUpper(c: char) { 'A' <= c <= 'Z' }

  function LowerChar(c: char): (r: char)
  {
    if IsUpper(c) then (c as int + 32) as char else c
  }

  /**
   * Lower-casing of a label (the ASCII part of Python's `str.lower`): same
   * length, no upper-case letter left, each upper-case letter replaced by its
   * lower-case partner and every other character kept.
   */
  function ToLower(s: string): (r: string)
    ensures |r| == |s|
    ensures forall i :: 0 <= i < |s| ==>
      !IsUpper(r[i]) &&
      if IsUpper(s[i]) then r[i] as int - s[i] as int == 'a' as int - 'A' as int else r[i] == s[i]
  {
    seq(|s|, i requires 0 <= i < |s| => LowerChar(s[i]))
  }

  /** Lower-casing twice is lower-casing once. */
  lemma ToLowerIdempotent(s: string)
    ensures ToLower(ToLower(s)) == ToLower(s)
  {
  }

  /** A label that differs from `m` only in letter case lowers to `m` when `m` is lower case. */
  lemma ToLowerOfUpperCase(s: string, m: string)
    requires |s| == |m|
    requires forall i :: 0 <= i < |m| ==> LowerChar(s[i]) == m[i]
    ensures ToLower(s) == m
  {
  }

  /**
   * `random.choice(artists)`: the random source is an oracle value `pick`, taken
   * to an index below the list length, as `_randbelow(len(artists))` returns; an
   * empty list has nothing to pick (Python raises `IndexError`).
   */
  function Choose(artists: seq<string>, pick: nat): (r: Option<string>)
    ensures r.Some? <==> |artists| > 0
    ensures r.Some? ==> r.value in artists
  {
    if |artists| == 0 then None else Some(artists[pick % |artists|])
  }

  /** Every candidate can be chosen: the oracle value `i` selects `artists[i]`. */
  lemma ChooseReachesEvery(artists: seq<string>, i: nat)
    requires i < |artists|
    ensures Choose(artists, i) == Some(artists[i])
  {
  }

  /**
   * The artist `play_spotify` selects for a detected emotion: the label is
   * lower-cased, looked up, and one candidate is picked; `None` is the
   * "No artists found" outcome.
   */
  function SelectArtist(emotion: string, pick: nat): (r: Option<string>)
    ensures r.Some? <==> ToLower(emotion) in MoodArtists
    ensures r.Some? ==> r.value in MoodArtists[ToLower(emotion)]
  {
    var mood := ToLower(emotion);
    if mood in MoodArtists then
      Choose(MoodArtists[mood], pick)
    else
      None
  }

  /** Labels that agree after lower-casing select from the same list with the same result. */
  lemma SelectIgnoresCase(a: string, b: string, pick: nat)
    requires ToLower(a) == ToLower(b)
    ensures SelectArtist(a, pick) == SelectArtist(b, pick)
  {
  }

  /** "HAPPY" and "happy" select the same artist, one of Dua Lipa and Bruno Mars. */
  lemma SelectHappyUpperCase(pick: nat)
    ensures SelectArtist("HAPPY", pick) == SelectArtist("happy", pick)
    ensures SelectArtist("HAPPY", pick) in {Some("Dua Lipa"), Some("Bruno Mars")}
  {
    ToLowerOfUpperCase("HAPPY", "happy");
    ToLowerOfUpperCase("happy", "happy");
  }
}
