/** The scrolling LED "now playing" text, built from the current track alone. */
module Marquee {
  import opened Playlist

  /** Text in front of the title. */
  const Prefix: string := "  NOW PLAYING: "
  /** Text between title and artist. */
  const Separator: string := " - "
  /** Padding after the artist that makes the duplicated text loop seamlessly:
      three spaces, "+++", a space, a no-break space and three spaces. */
  const Suffix: string := "   +++ \U{00A0}   "

  /** The marquee for track `t`: the prefix, the title, the separator, the
      artist and the loop padding, in that order and with nothing else. */
  function Compose(t: Track): (m: string)
    ensures |m| == |Prefix| + |t.title| + |Separator| + |t.artist| + |Suffix|
    ensures m[..|Prefix|] == Prefix
    ensures m[|Prefix|..|Prefix| + |t.title|] == t.title
    ensures m[|Prefix| + |t.title|..|Prefix| + |t.title| + |Separator|] == Separator
    ensures m[|m| - |Suffix| - |t.artist|..|m| - |Suffix|] == t.artist
    ensures m[|m| - |Suffix|..] == Suffix
  {
    Prefix + t.title + Separator + t.artist + Suffix
  }

  /** The title read back from a marquee, given the title's length. */
  function TitleOf(m: string, titleLength: nat): string
    requires |Prefix| + titleLength <= |m|
  {
    m[|Prefix|..|Prefix| + titleLength]
  }

  /** The artist read back from a marquee, given the title's length. */
  function ArtistOf(m: string, titleLength: nat): string
    requires |Prefix| + titleLength + |Separator| + |Suffix| <= |m|
  {
    m[|Prefix| + titleLength + |Separator|..|m| - |Suffix|]
  }

  /** Nothing of title or artist is lost: both are recovered from the marquee,
      so two tracks with equally long titles share a marquee only when they
      share title and artist. */
  lemma ComposeRecoverable(t: Track)
    ensures TitleOf(Compose(t), |t.title|) == t.title
    ensures ArtistOf(Compose(t), |t.title|) == t.artist
  {
    var m := Compose(t);
    assert |m| - |Suffix| - |t.artist| == |Prefix| + |t.title| + |Separator|;
  }
}
