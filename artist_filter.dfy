/** The artist filter of the newer revision: the artist card's element id
    is the lower-cased artist name with its first space turned into "-",
    and a click on the card searches singers for that id with its first "-"
    turned back into a space. Lower-casing is ASCII only. */
module ArtistFilter {
  import opened IndexLists

  function LowerChar(c: char): (r: char)
    ensures 'A' <= c <= 'Z' ==> r as int == c as int + 32
    ensures !('A' <= c <= 'Z') ==> r == c
  {
    if 'A' <= c <= 'Z' then (c as int + 32) as char else c
  }

  /** `toLowerCase()`, restricted to ASCII letters. */
  function ToLower(s: string): (r: string)
    ensures |r| == |s| && forall i :: 0 <= i < |s| ==> r[i] == LowerChar(s[i])
  {
    seq(|s|, i requires 0 <= i < |s| => LowerChar(s[i]))
  }

  /** `s.replace(from, to)` with a one-character pattern (a string or the
      regular expression `/[ ]/` without the global flag): only the first
      occurrence is replaced. */
  function ReplaceFirst(s: string, from: char, to: char): (r: string)
    ensures |r| == |s|
    ensures from !in s ==> r == s
    ensures from in s ==> r == s[IndexOf(s, from) := to]
  {
    var k := IndexOf(s, from);
    if k < 0 then s else s[k := to]
  }

  /** The id given to an artist's card. */
  function ArtistId(name: string): string
  {
    ReplaceFirst(ToLower(name), ' ', '-')
  }

  /** The text that `filterSongs` looks for in each lower-cased singer. */
  function SearchString(artistId: string): string
  {
    ReplaceFirst(artistId, '-', ' ')
  }

  predicate OccursAt(s: string, part: string, i: int)
  {
    0 <= i <= |s| - |part| && s[i..i + |part|] == part
  }

  /** `String.prototype.includes`. */
  predicate Includes(s: string, part: string)
  {
    exists i | 0 <= i <= |s| :: OccursAt(s, part, i)
  }

  /** Whether `filterSongs(artistId)` keeps a song by `singer`. */
  predicate IsSinger(singer: string, artistId: string)
  {
    Includes(ToLower(singer), SearchString(artistId))
  }

  lemma NoHyphenAfterLower(name: string)
    requires '-' !in name
    ensures '-' !in ToLower(name)
  {
    var l := ToLower(name);
    forall i | 0 <= i < |l| ensures l[i] != '-' {
      assert name[i] != '-';
    }
  }

  /** For a name without "-", decoding the card id gives back the
      lower-cased name. */
  lemma ArtistIdRoundTrip(name: string)
    requires '-' !in name
    ensures SearchString(ArtistId(name)) == ToLower(name)
  {
    var l := ToLower(name);
    NoHyphenAfterLower(name);
    if ' ' in l {
      var k := IndexOf(l, ' ');
      var id := l[k := '-'];
      assert id[k] == '-';
      assert '-' !in id[..k] by { assert id[..k] == l[..k]; }
      assert IndexOf(id, '-') == k;
      assert id[k := ' '] == l;
    }
  }

  /** Consequently clicking such an artist's card keeps that artist's own
      songs. */
  lemma ArtistFindsOwnSongs(name: string)
    requires '-' !in name
    ensures IsSinger(name, ArtistId(name))
  {
    ArtistIdRoundTrip(name);
    var l := ToLower(name);
    assert OccursAt(l, l, 0);
  }

  /** A one-word name with a "-" in it is not recovered: the decoded id has
      a space where the name has "-", so the filter misses the artist's own
      songs. */
  lemma HyphenatedArtistMissesOwnSongs(name: string)
    requires '-' in name && ' ' !in name
    ensures !IsSinger(name, ArtistId(name))
  {
    var l := ToLower(name);
    var q := SearchString(ArtistId(name));
    assert ' ' !in l by {
      forall i | 0 <= i < |l| ensures l[i] != ' ' {
        assert name[i] != ' ';
      }
    }
    assert ArtistId(name) == l;
    var k := IndexOf(name, '-');
    assert l[k] == '-';
    assert '-' in l;
    assert q == l[IndexOf(l, '-') := ' '];
    assert |q| == |l|;
  }
}
