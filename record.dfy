/** The song record as the Genius API returns it, the record gTagger builds
    from it, and the fields derived from that record for tagging. */
module Record {
  import opened Wrappers
  import opened PyStr

  datatype Album = Album(name: string, artist: string, coverArtUrl: string, url: string)

  /** `response.song` of the metadata API: the fields gTagger reads. */
  datatype Song = Song(
    title: string,
    titleWithFeatured: string,
    primaryArtist: string,
    album: Option<Album>,
    songArtImageUrl: string,
    url: string)

  /** The song dict once the scraped lyrics and the track number are added. */
  datatype MusicRecord = MusicRecord(song: Song, lyrics: Option<string>, trackNumber: Option<int>)

  predicate FtAt(s: string, i: int)
  {
    0 <= i && i + 3 <= |s| && s[i] == 'F' && s[i + 1] == 't' && s[i + 2] == '.'
  }

  /** `s.replace('Ft.', 'feat.')`: occurrences taken left to right without
      overlap. */
  function ReplaceFt(s: string): (r: string)
    ensures |r| >= |s|
  {
    if s == [] then []
    else if FtAt(s, 0) then "feat." + ReplaceFt(s[3..])
    else [s[0]] + ReplaceFt(s[1..])
  }

  /** Up to the first 'f' it writes, the replacement copies its input. */
  lemma {:induction false} FtCopiedPrefix(t: string, k: nat)
    requires k <= |ReplaceFt(t)|
    requires forall j :: 0 <= j < k ==> ReplaceFt(t)[j] != 'f'
    ensures k <= |t| && ReplaceFt(t)[..k] == t[..k]
  {
    if k > 0 {
      var r := ReplaceFt(t);
      assert r[0] != 'f';
      assert r == [t[0]] + ReplaceFt(t[1..]);
      forall j | 0 <= j < k - 1 ensures ReplaceFt(t[1..])[j] != 'f' {
        assert ReplaceFt(t[1..])[j] == r[j + 1];
      }
      FtCopiedPrefix(t[1..], k - 1);
    }
  }

  /** After the replacement no "Ft." is left: "feat." holds no 'F', so the
      replacement creates none. */
  lemma {:induction false} NoFtRemains(s: string)
    ensures forall i :: !FtAt(ReplaceFt(s), i)
  {
    if s != [] {
      var r := ReplaceFt(s);
      var replaced := FtAt(s, 0);
      var u := if replaced then s[3..] else s[1..];
      var head := if replaced then "feat." else [s[0]];
      NoFtRemains(u);
      var ru := ReplaceFt(u);
      assert r == head + ru;
      forall i | 0 <= i
        ensures !FtAt(r, i)
      {
        if i >= |head| {
          assert !FtAt(ru, i - |head|);
        } else if !replaced {
          if |ru| >= 2 && ru[0] == 't' && ru[1] == '.' {
            FtCopiedPrefix(u, 2);
            assert u[..2] == ru[..2];
          }
        }
      }
    }
  }

  /** A title without "Ft." comes through unchanged. */
  lemma {:induction false} ReplaceFtIdentity(s: string)
    requires forall i :: !FtAt(s, i)
    ensures ReplaceFt(s) == s
  {
    if s != [] {
      assert !FtAt(s, 0);
      forall i | 0 <= i ensures !FtAt(s[1..], i) {
        assert !FtAt(s, i + 1);
      }
      ReplaceFtIdentity(s[1..]);
    }
  }

  /** Replacing twice is replacing once. */
  lemma ReplaceFtIdempotent(s: string)
    ensures ReplaceFt(ReplaceFt(s)) == ReplaceFt(s)
  {
    NoFtRemains(s);
    ReplaceFtIdentity(ReplaceFt(s));
  }

  /** No "Ft." starts in the last two characters of `a` and runs into `b`. */
  predicate CleanCut(a: string, b: string)
  {
    forall i :: |a| - 2 <= i < |a| ==> !FtAt(a + b, i)
  }

  /** One step of the rewrite: a leading "Ft." or a leading character. */
  lemma ReplaceFtFirst(s: string)
    requires s != []
    ensures var n := if FtAt(s, 0) then 3 else 1;
            var head := if FtAt(s, 0) then "feat." else [s[0]];
            ReplaceFt(s) == head + ReplaceFt(s[n..])
  {
  }

  lemma CleanCutShift(a: string, b: string, n: nat)
    requires 1 <= n <= |a| && CleanCut(a, b)
    ensures (a + b)[n..] == a[n..] + b
    ensures CleanCut(a[n..], b)
  {
    var s := a + b;
    assert s[n..] == a[n..] + b;
    forall i | |a[n..]| - 2 <= i < |a[n..]|
      ensures !FtAt(a[n..] + b, i)
    {
      if FtAt(a[n..] + b, i) {
        assert FtAt(s, i + n);
      }
    }
  }

  /** Cutting a title where no "Ft." straddles the cut, the two parts are
      rewritten independently: everything but "Ft." is copied in order. */
  lemma {:induction false} ReplaceFtAppend(a: string, b: string)
    requires CleanCut(a, b)
    ensures ReplaceFt(a + b) == ReplaceFt(a) + ReplaceFt(b)
  {
    if a == [] {
      assert a + b == b;
    } else {
      SameFirstStep(a, b);
      var n := if FtAt(a, 0) then 3 else 1;
      CleanCutShift(a, b, n);
      ReplaceFtAppend(a[n..], b);
      var head := if FtAt(a, 0) then "feat." else [a[0]];
      Regroup(head, ReplaceFt(a[n..]), ReplaceFt(b));
    }
  }

  /** The first step on `a + b` is the first step on `a`. */
  lemma SameFirstStep(a: string, b: string)
    requires a != [] && CleanCut(a, b)
    ensures var n := if FtAt(a, 0) then 3 else 1;
            var head := if FtAt(a, 0) then "feat." else [a[0]];
            && n <= |a|
            && ReplaceFt(a) == head + ReplaceFt(a[n..])
            && ReplaceFt(a + b) == head + ReplaceFt((a + b)[n..])
  {
    var s := a + b;
    assert FtAt(s, 0) == FtAt(a, 0) by {
      if |a| >= 3 {
        assert s[0] == a[0] && s[1] == a[1] && s[2] == a[2];
      }
    }
    ReplaceFtFirst(s);
    ReplaceFtFirst(a);
  }

  /** Each "Ft." becomes "feat." and the text on either side is rewritten
      as if on its own. */
  lemma ReplaceFtAt(a: string, b: string)
    ensures ReplaceFt(a + "Ft." + b) == ReplaceFt(a) + "feat." + ReplaceFt(b)
  {
    var t := "Ft." + b;
    assert a + "Ft." + b == a + t;
    forall i | |a| - 2 <= i < |a|
      ensures !FtAt(a + t, i)
    {
      if i == |a| - 1 && 0 <= i {
        assert (a + t)[i + 1] == 'F';
      } else if 0 <= i {
        assert (a + t)[i + 2] == 'F';
      }
    }
    ReplaceFtAppend(a, t);
    assert FtAt(t, 0);
    assert t[3..] == b;
  }

  /** `__get_title`: "Ft." becomes "feat.", then NFKD normalisation, which
      is a foreign call and is passed in. */
  function Title(nfkd: string -> string, rec: MusicRecord): (r: string)
    ensures (forall i :: !FtAt(rec.song.titleWithFeatured, i)) ==> r == nfkd(rec.song.titleWithFeatured)
  {
    var s := rec.song.titleWithFeatured;
    assert (forall i :: !FtAt(s, i)) ==> ReplaceFt(s) == s by {
      if forall i :: !FtAt(s, i) { ReplaceFtIdentity(s); }
    }
    nfkd(ReplaceFt(s))
  }

  /** In a title with a featured artist, "Ft." becomes "feat." and the text
      around it is rewritten on its own, before normalisation. */
  lemma TitleFeaturing(nfkd: string -> string, rec: MusicRecord, a: string, b: string)
    requires rec.song.titleWithFeatured == a + "Ft." + b
    ensures Title(nfkd, rec) == nfkd(ReplaceFt(a) + "feat." + ReplaceFt(b))
  {
    ReplaceFtAt(a, b);
  }

  /** `__get_album_info`: the album's name and artist, or for a single the
      title with " - Single" and the primary artist. */
  function AlbumInfo(rec: MusicRecord): (r: (string, string))
    ensures rec.song.album.Some? ==> r == (rec.song.album.value.name, rec.song.album.value.artist)
    ensures rec.song.album.None? ==> r.0 == rec.song.title + " - Single" && r.1 == rec.song.primaryArtist
  {
    match rec.song.album
    case Some(album) => (album.name, album.artist)
    case None => (rec.song.title + " - Single", rec.song.primaryArtist)
  }

  /** `__get_cover_art_url`: the album's cover, or for a single the song's
      own artwork. */
  function CoverArtUrl(rec: MusicRecord): (r: string)
    ensures rec.song.album.Some? ==> r == rec.song.album.value.coverArtUrl
    ensures rec.song.album.None? ==> r == rec.song.songArtImageUrl
  {
    match rec.song.album
    case Some(album) => album.coverArtUrl
    case None => rec.song.songArtImageUrl
  }
}
