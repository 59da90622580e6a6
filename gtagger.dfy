/** The gTagger pipeline: find the song's Genius page among the candidate
    URLs, merge the API record with the scraped lyrics and the album's track
    number, write the tags, save, and rename the file. The network, the HTML
    parser and the foreign string functions are the fields of `Services`. */
module GTagger {
  import opened Wrappers
  import opened PyStr
  import opened PosixPath
  import opened SongId
  import opened Markup
  import opened Record
  import opened Naming
  import opened Container

  /** What the search generator yields before it stops, and whether it
      stopped by raising rather than by running out of results. */
  datatype Listing = Listing(urls: seq<string>, raised: bool)

  /** What the HTML parser makes of a candidate page: it raises while
      parsing, or it parses and the lyrics div is missing (or its text
      raises), or it parses and the div has this text. */
  datatype Lookup = Unparsable | NoLyricsDiv | LyricsText(text: string)

  /** The collaborators, as total functions; None stands for a call that
      raises. */
  datatype Services = Services(
    search: string -> Listing,                    // googlesearch.search, iterated
    page: string -> Option<string>,               // requests.get(url, User-Agent).text
    lyricsDiv: string -> Lookup,                  // BeautifulSoup(html), then the first div whose class starts with "lyrics"
    albumRows: string -> Option<seq<ChartRow>>,   // requests.get(album_url), its "chart_row" divs
    takesFrames: string -> bool,                  // File(path) is of a format whose tags accept ID3 frames
    api: (string, string) -> Option<Song>,        // token and song id to response.song
    artwork: string -> Option<seq<bv8>>,          // requests.get(url, stream=True).raw.read()
    nfkd: string -> string,                       // unicodedata.normalize('NFKD', _)
    sanitize: string -> string)                   // pathvalidate.sanitize_filename

  /** Why tagging one file gives up; `tag` reports it and leaves the file. */
  datatype Failure =
    | SearchFailed               // the search generator raised before a candidate succeeded
    | SongNotFound               // 'Failed to find the song on Genius.com!'
    | ApiFailed                  // the API request or its response.song lookup raised
    | AlbumPageFailed            // the album page request raised
    | TrackLookup(reason: TrackError)
    | CannotOpen                 // mutagen could not open the file
    | CannotTag                  // the file's format refuses the ID3 frame TIT2

  /** A candidate that worked: the song id and the lyrics, if found. */
  datatype Found = Found(songId: string, lyrics: Option<string>)

  const MaxResults: nat := 5

  function SearchQuery(query: string): string
  {
    "site:genius.com " + query + " lyrics"
  }

  /** The candidate URLs: the explicit URL alone, or the search results
      for the query, stopped after five. */
  function Candidates(sv: Services, query: string, geniusUrl: Option<string>): (r: Listing)
    ensures geniusUrl.Some? ==> r == Listing([geniusUrl.value], false)
    ensures geniusUrl.None? ==>
      var l := sv.search(SearchQuery(query));
      && |r.urls| <= MaxResults
      && r.urls <= l.urls
      && (|r.urls| < MaxResults ==> r == l)
      && (|l.urls| >= MaxResults ==> r.urls == l.urls[..MaxResults] && !r.raised)
  {
    match geniusUrl
    case Some(url) => Listing([url], false)
    case None =>
      var l := sv.search(SearchQuery(query));
      if |l.urls| >= MaxResults then Listing(l.urls[..MaxResults], false) else l
  }

  /** One pass of the loop body: fetch the page, find the song id (no id
      rejects the candidate), rewrite the line breaks, parse the page (a
      parser error rejects the candidate too) and look for the lyrics,
      stripped. */
  function Attempt(sv: Services, url: string): (r: Option<Found>)
    ensures r.Some? <==>
      && sv.page(url).Some?
      && FindSongId(sv.page(url).value).Some?
      && !sv.lyricsDiv(ReplaceBreaks(sv.page(url).value)).Unparsable?
  {
    match sv.page(url)
    case None => None
    case Some(html) =>
      match FindSongId(html)
      case None => None
      case Some(id) =>
        match sv.lyricsDiv(ReplaceBreaks(html))
        case Unparsable => None
        case NoLyricsDiv => Some(Found(id, None))
        case LyricsText(text) => Some(Found(id, Some(Strip(text))))
  }

  /** A page that works gives its song id, a non-empty run of digits, and
      lyrics exactly when the lyrics div is found once the line breaks are
      rewritten. */
  lemma AttemptFound(sv: Services, url: string)
    requires Attempt(sv, url).Some?
    ensures var f := Attempt(sv, url).value;
            var html := sv.page(url).value;
            && f.songId == FindSongId(html).value
            && f.songId != [] && AllDigits(f.songId)
            && (f.lyrics.None? <==> sv.lyricsDiv(ReplaceBreaks(html)) == NoLyricsDiv)
            && (f.lyrics.Some? ==> f.lyrics.value == Strip(sv.lyricsDiv(ReplaceBreaks(html)).text))
  {
  }

  /** The loop body as a function of the URL. */
  function Attempter(sv: Services): string -> Option<Found>
  {
    url => Attempt(sv, url)
  }

  /** An attempt reads only the pages and the lyrics lookup. */
  lemma SamePagesSameAttempts(sv: Services, sv': Services)
    requires sv'.page == sv.page && sv'.lyricsDiv == sv.lyricsDiv
    ensures forall u :: Attempter(sv')(u) == Attempter(sv)(u)
  {
    forall u ensures Attempt(sv', u) == Attempt(sv, u) {
    }
  }

  /** Candidate `i` is the first one that works, and gives `f`. */
  predicate FirstWorking(attempt: string -> Option<Found>, urls: seq<string>, i: int, f: Found)
  {
    && 0 <= i < |urls|
    && attempt(urls[i]) == Some(f)
    && forall j :: 0 <= j < i ==> attempt(urls[j]).None?
  }

  /** The `for url in urls` loop: the first candidate that works wins;
      when none does, the song is not found (or the search's own error
      surfaces). */
  function FirstCandidate(attempt: string -> Option<Found>, urls: seq<string>, raised: bool): (r: Result<Found, Failure>)
    ensures r.Success? <==> exists i :: 0 <= i < |urls| && attempt(urls[i]).Some?
    ensures r.Success? ==> exists i :: FirstWorking(attempt, urls, i, r.value)
    ensures r.Failure? ==> r.error == (if raised then SearchFailed else SongNotFound)
  {
    if urls == [] then Failure(if raised then SearchFailed else SongNotFound)
    else
      match attempt(urls[0])
      case Some(f) =>
        assert FirstWorking(attempt, urls, 0, f);
        Success(f)
      case None =>
        var r := FirstCandidate(attempt, urls[1..], raised);
        assert forall i :: 0 < i < |urls| ==> urls[i] == urls[1..][i - 1];
        if r.Success? then
          var i :| FirstWorking(attempt, urls[1..], i, r.value);
          assert FirstWorking(attempt, urls, i + 1, r.value);
          r
        else r
  }

  /** One turn of the loop. */
  lemma FirstCandidateStep(attempt: string -> Option<Found>, urls: seq<string>, raised: bool)
    requires urls != []
    ensures FirstCandidate(attempt, urls, raised) ==
      match attempt(urls[0])
      case Some(f) => Success(f)
      case None => FirstCandidate(attempt, urls[1..], raised)
  {
  }

  /** Where the loop stands at candidate `i`: a working candidate is the
      answer, a failing one passes the search on to the next. */
  lemma SkipFailedCandidate(attempt: string -> Option<Found>, urls: seq<string>, i: nat, raised: bool)
    requires i < |urls|
    ensures var r := FirstCandidate(attempt, urls[i..], raised);
            match attempt(urls[i])
            case Some(f) => r == Success(f)
            case None => r == FirstCandidate(attempt, urls[i + 1..], raised)
  {
    assert urls[i..][1..] == urls[i + 1..];
    FirstCandidateStep(attempt, urls[i..], raised);
  }

  /** `__get_genius_data`. */
  function GeniusData(sv: Services, query: string, geniusUrl: Option<string>): (r: Result<Found, Failure>)
    ensures r.Failure? ==> r.error == SearchFailed || r.error == SongNotFound
  {
    var c := Candidates(sv, query, geniusUrl);
    FirstCandidate(Attempter(sv), c.urls, c.raised)
  }

  /** `__get_genius_data`: the first candidate whose page works gives the
      song id and lyrics; when none works, the song is not found, or the
      search's own error surfaces. */
  lemma GeniusDataPicksFirst(sv: Services, query: string, geniusUrl: Option<string>)
    ensures var c := Candidates(sv, query, geniusUrl);
      var r := GeniusData(sv, query, geniusUrl);
      && (r.Success? <==> exists i :: 0 <= i < |c.urls| && Attempt(sv, c.urls[i]).Some?)
      && (r.Success? ==> exists i :: FirstWorking(Attempter(sv), c.urls, i, r.value))
      && (r.Failure? ==> r.error == if c.raised then SearchFailed else SongNotFound)
  {
    var c := Candidates(sv, query, geniusUrl);
    var r := FirstCandidate(Attempter(sv), c.urls, c.raised);
    assert forall i :: 0 <= i < |c.urls| ==> Attempter(sv)(c.urls[i]) == Attempt(sv, c.urls[i]);
  }

  /** Once a candidate has worked, whatever follows it is irrelevant: it is
      never fetched. */
  lemma {:induction false} LaterCandidatesIgnored(attempt: string -> Option<Found>, urls: seq<string>, rest: seq<string>, raised: bool, raised': bool)
    requires FirstCandidate(attempt, urls, raised).Success?
    ensures FirstCandidate(attempt, urls + rest, raised') == FirstCandidate(attempt, urls, raised)
  {
    if attempt(urls[0]).None? {
      assert (urls + rest)[1..] == urls[1..] + rest;
      LaterCandidatesIgnored(attempt, urls[1..], rest, raised, raised');
    }
  }

  /** Two attempts that agree, URL by URL, on whether a page works and on
      its song id pick the same candidate. */
  lemma {:induction false} SameIdsSameWinner(a: string -> Option<Found>, b: string -> Option<Found>, urls: seq<string>, raised: bool)
    requires forall u :: a(u).Some? == b(u).Some? && (a(u).Some? ==> a(u).value.songId == b(u).value.songId)
    ensures var r := FirstCandidate(a, urls, raised);
            var r' := FirstCandidate(b, urls, raised);
            && r'.Success? == r.Success?
            && (r.Success? ==> r'.value.songId == r.value.songId)
            && (r.Failure? ==> r' == r)
  {
    if urls != [] {
      SameIdsSameWinner(a, b, urls[1..], raised);
    }
  }

  /** Two attempts that agree on every URL give the same result. */
  lemma {:induction false} SameAttemptsSameResult(a: string -> Option<Found>, b: string -> Option<Found>, urls: seq<string>, raised: bool)
    requires forall u :: a(u) == b(u)
    ensures FirstCandidate(a, urls, raised) == FirstCandidate(b, urls, raised)
  {
    if urls != [] {
      SameAttemptsSameResult(a, b, urls[1..], raised);
    }
  }

  /** Which candidate wins, and the song id, do not depend on whether the
      lyrics are found: a page without lyrics is still accepted. Only a
      page the parser rejects is skipped. */
  lemma LyricsDoNotDecideWinner(sv: Services, urls: seq<string>, raised: bool, div: string -> Lookup)
    requires forall h :: div(h).Unparsable? == sv.lyricsDiv(h).Unparsable?
    ensures var r := FirstCandidate(Attempter(sv), urls, raised);
            var r' := FirstCandidate(Attempter(sv.(lyricsDiv := div)), urls, raised);
            && r'.Success? == r.Success?
            && (r.Success? ==> r'.value.songId == r.value.songId)
            && (r.Failure? ==> r' == r)
  {
    var sv' := sv.(lyricsDiv := div);
    forall u
      ensures Attempter(sv)(u).Some? == Attempter(sv')(u).Some?
      ensures Attempter(sv)(u).Some? ==> Attempter(sv)(u).value.songId == Attempter(sv')(u).value.songId
    {
      if Attempt(sv, u).Some? {
        AttemptFound(sv, u);
        AttemptFound(sv', u);
      }
    }
    SameIdsSameWinner(Attempter(sv), Attempter(sv'), urls, raised);
  }

  /** With an explicit URL the search is not consulted: the result is that
      page's, or "not found". */
  lemma ExplicitUrlOnly(sv: Services, query: string, url: string, search: string -> Listing)
    ensures GeniusData(sv, query, Some(url)) == GeniusData(sv.(search := search), query, Some(url))
    ensures GeniusData(sv, query, Some(url)) ==
      match Attempt(sv, url) case Some(f) => Success(f) case None => Failure(SongNotFound)
  {
    assert [url][1..] == [];
    var sv' := sv.(search := search);
    SamePagesSameAttempts(sv', sv);
    SameAttemptsSameResult(Attempter(sv), Attempter(sv'), [url], false);
  }

  /** `__get_track_number` with its request: the album page's rows, then
      the leading integer of the first row mentioning the song. */
  function TrackNumber(sv: Services, albumUrl: string, songUrl: string): (r: Result<int, Failure>)
    ensures r.Failure? ==> r.error == AlbumPageFailed || r.error.TrackLookup?
    ensures r == Failure(AlbumPageFailed) <==> sv.albumRows(albumUrl).None?
    ensures sv.albumRows(albumUrl).Some? ==>
      match TrackFromRows(sv.albumRows(albumUrl).value, songUrl)
      case Success(n) => r == Success(n)
      case Failure(e) => r == Failure(TrackLookup(e))
  {
    match sv.albumRows(albumUrl)
    case None => Failure(AlbumPageFailed)
    case Some(rows) =>
      match TrackFromRows(rows, songUrl)
      case Success(n) => Success(n)
      case Failure(e) => Failure(TrackLookup(e))
  }

  /** `__get_song_metadata`: the API's song with the scraped lyrics copied
      in, and a track number exactly when the song is on an album. */
  function SongMetadata(sv: Services, token: string, query: string, geniusUrl: Option<string>): (r: Result<MusicRecord, Failure>)
    ensures r.Success? ==>
      var found := GeniusData(sv, query, geniusUrl);
      && found.Success?
      && sv.api(token, found.value.songId) == Some(r.value.song)
      && r.value.lyrics == found.value.lyrics
      && (r.value.trackNumber.None? <==> r.value.song.album.None?)
      && (r.value.song.album.Some? ==>
            TrackNumber(sv, r.value.song.album.value.url, r.value.song.url) == Success(r.value.trackNumber.value))
    ensures r.Failure? <==>
      var found := GeniusData(sv, query, geniusUrl);
      || found.Failure?
      || sv.api(token, found.value.songId).None?
      || (var song := sv.api(token, found.value.songId).value;
          song.album.Some? && TrackNumber(sv, song.album.value.url, song.url).Failure?)
  {
    match GeniusData(sv, query, geniusUrl)
    case Failure(e) => Failure(e)
    case Success(found) =>
      match sv.api(token, found.songId)
      case None => Failure(ApiFailed)
      case Some(song) =>
        match song.album
        case None => Success(MusicRecord(song, found.lyrics, None))
        case Some(album) =>
          match TrackNumber(sv, album.url, song.url)
          case Failure(e) => Failure(e)
          case Success(n) => Success(MusicRecord(song, found.lyrics, Some(n)))
  }

  /** The record of a single: the API's song, the lyrics, no track number. */
  lemma SingleRecord(sv: Services, token: string, query: string, geniusUrl: Option<string>)
    requires GeniusData(sv, query, geniusUrl).Success?
    requires var s := sv.api(token, GeniusData(sv, query, geniusUrl).value.songId); s.Some? && s.value.album.None?
    ensures var found := GeniusData(sv, query, geniusUrl).value;
            SongMetadata(sv, token, query, geniusUrl) ==
              Success(MusicRecord(sv.api(token, found.songId).value, found.lyrics, None))
  {
  }

  /** A single is never looked up on an album page: its record does not
      depend on the album service at all, and has no track number. */
  lemma SingleSkipsAlbumPage(sv: Services, token: string, query: string, geniusUrl: Option<string>, rows: string -> Option<seq<ChartRow>>)
    requires GeniusData(sv, query, geniusUrl).Success?
    requires var s := sv.api(token, GeniusData(sv, query, geniusUrl).value.songId); s.Some? && s.value.album.None?
    ensures SongMetadata(sv.(albumRows := rows), token, query, geniusUrl) == SongMetadata(sv, token, query, geniusUrl)
    ensures SongMetadata(sv, token, query, geniusUrl).Success?
    ensures SongMetadata(sv, token, query, geniusUrl).value.trackNumber.None?
  {
    var sv' := sv.(albumRows := rows);
    SamePagesSameAttempts(sv, sv');
    var c := Candidates(sv, query, geniusUrl);
    assert Candidates(sv', query, geniusUrl) == c;
    SameAttemptsSameResult(Attempter(sv'), Attempter(sv), c.urls, c.raised);
    assert GeniusData(sv', query, geniusUrl) == GeniusData(sv, query, geniusUrl);
    SingleRecord(sv, token, query, geniusUrl);
    SingleRecord(sv', token, query, geniusUrl);
  }

  const TagKeys: set<string> := {"TIT2", "TPE1", "TALB", "TPE2", "USLT::XXX", "TRCK"}

  /** The assignments of `__embed_metatags` into the file's tags: title,
      artist, album, album artist, lyrics and track number always, the
      picture only when the artwork was fetched; every other key as it was. */
  function TagFrames(sv: Services, rec: MusicRecord, artwork: Option<seq<bv8>>, before: Tags): (r: Tags)
    ensures r.Keys == before.Keys + TagKeys + (if artwork.Some? then {"APIC:"} else {})
    ensures r["TIT2"] == TextFrame(3, [Title(sv.nfkd, rec)])
    ensures r["TPE1"] == TextFrame(3, [rec.song.primaryArtist])
    ensures r["TALB"] == TextFrame(3, [AlbumInfo(rec).0])
    ensures r["TPE2"] == TextFrame(3, [AlbumInfo(rec).1])
    ensures r["USLT::XXX"] == LyricsFrame(1, "XXX", "", rec.lyrics)
    ensures r["TRCK"] == TrackFrame(3, [rec.trackNumber])
    ensures artwork.Some? ==> r["APIC:"] == PictureFrame(3, "image/jpeg", 3, "", artwork.value)
    ensures forall k :: k in before && k !in TagKeys && (k != "APIC:" || artwork.None?) ==> r[k] == before[k]
  {
    var (album, albumArtist) := AlbumInfo(rec);
    var tags := before
      ["TIT2" := TextFrame(3, [Title(sv.nfkd, rec)])]
      ["TPE1" := TextFrame(3, [rec.song.primaryArtist])]
      ["TALB" := TextFrame(3, [album])]
      ["TPE2" := TextFrame(3, [albumArtist])]
      ["USLT::XXX" := LyricsFrame(1, "XXX", "", rec.lyrics)]
      ["TRCK" := TrackFrame(3, [rec.trackNumber])];
    match artwork
    case None => tags
    case Some(data) => tags["APIC:" := PictureFrame(3, "image/jpeg", 3, "", data)]
  }

  /** `__embed_metatags` on the files: the record, the tags written and
      saved, then the rename. The result is the display title and the new
      path, or the failure; a failure changes no file (the first frame
      assignment is the one a refusing format raises at). */
  function Embed(sv: Services, token: string, query: string, filename: string, geniusUrl: Option<string>,
                 files: map<string, Tags>): (r: (Result<(string, string), Failure>, map<string, Tags>))
    ensures r.0.Failure? ==> r.1 == files
    ensures r.0.Failure? <==>
      SongMetadata(sv, token, query, geniusUrl).Failure? || filename !in files || !sv.takesFrames(filename)
    ensures r.0.Success? ==>
      var rec := SongMetadata(sv, token, query, geniusUrl).value;
      var title := Title(sv.nfkd, rec);
      var artist := rec.song.primaryArtist;
      && r.0.value == (artist + " - " + title, RenamedPath(sv.sanitize, title, artist, filename))
      && r.1 == Moved(files[filename := TagFrames(sv, rec, sv.artwork(CoverArtUrl(rec)), files[filename])], filename, r.0.value.1)
  {
    match SongMetadata(sv, token, query, geniusUrl)
    case Failure(e) => (Failure(e), files)
    case Success(rec) =>
      if filename !in files then (Failure(CannotOpen), files)
      else if !sv.takesFrames(filename) then (Failure(CannotTag), files)
      else
        var title := Title(sv.nfkd, rec);
        var artist := rec.song.primaryArtist;
        var saved := files[filename := TagFrames(sv, rec, sv.artwork(CoverArtUrl(rec)), files[filename])];
        var newPath := RenamedPath(sv.sanitize, title, artist, filename);
        (Success((artist + " - " + title, newPath)), Moved(saved, filename, newPath))
  }

  /** The three ways `Embed` can end, one lemma each, for the method that
      carries it out. */
  lemma EmbedNoRecord(sv: Services, token: string, query: string, filename: string, geniusUrl: Option<string>,
                      files: map<string, Tags>)
    requires SongMetadata(sv, token, query, geniusUrl).Failure?
    ensures Embed(sv, token, query, filename, geniusUrl, files) == (Failure(SongMetadata(sv, token, query, geniusUrl).error), files)
  {
  }

  lemma EmbedNoFile(sv: Services, token: string, query: string, filename: string, geniusUrl: Option<string>,
                    files: map<string, Tags>)
    requires SongMetadata(sv, token, query, geniusUrl).Success? && filename !in files
    ensures Embed(sv, token, query, filename, geniusUrl, files) == (Failure(CannotOpen), files)
  {
  }

  lemma EmbedUntaggable(sv: Services, token: string, query: string, filename: string, geniusUrl: Option<string>,
                        files: map<string, Tags>)
    requires SongMetadata(sv, token, query, geniusUrl).Success? && filename in files && !sv.takesFrames(filename)
    ensures Embed(sv, token, query, filename, geniusUrl, files) == (Failure(CannotTag), files)
  {
  }

  lemma EmbedWritten(sv: Services, token: string, query: string, filename: string, geniusUrl: Option<string>,
                     files: map<string, Tags>, rec: MusicRecord)
    requires SongMetadata(sv, token, query, geniusUrl) == Success(rec) && filename in files && sv.takesFrames(filename)
    ensures var title := Title(sv.nfkd, rec);
      var artist := rec.song.primaryArtist;
      var newPath := RenamedPath(sv.sanitize, title, artist, filename);
      Embed(sv, token, query, filename, geniusUrl, files) ==
        (Success((artist + " - " + title, newPath)),
         Moved(files[filename := TagFrames(sv, rec, sv.artwork(CoverArtUrl(rec)), files[filename])], filename, newPath))
  {
  }

  /** `tag`: the display title and the new path, or on any failure the
      query and the file name as given. */
  function TagOutcome(sv: Services, token: string, query: string, filename: string, geniusUrl: Option<string>,
                      files: map<string, Tags>): (r: (string, string))
    ensures var e := Embed(sv, token, query, filename, geniusUrl, files).0;
      && (e.Success? ==> r == e.value)
      && (e.Failure? ==> r == (query, filename))
  {
    match Embed(sv, token, query, filename, geniusUrl, files).0
    case Success(named) => named
    case Failure(_) => (query, filename)
  }

  /** When tagging fails, `tag` hands back its arguments and no file has
      changed. */
  lemma TagFallback(sv: Services, token: string, query: string, filename: string, geniusUrl: Option<string>,
                    files: map<string, Tags>)
    requires SongMetadata(sv, token, query, geniusUrl).Failure? || filename !in files || !sv.takesFrames(filename)
    ensures TagOutcome(sv, token, query, filename, geniusUrl, files) == (query, filename)
    ensures Embed(sv, token, query, filename, geniusUrl, files).1 == files
  {
  }

  /** A tagged file is renamed within the directory it was in, to a name
      whose whitespace is collapsed, provided the sanitizer leaves some name
      and no slash. */
  lemma TaggedFileStaysInDirectory(sv: Services, token: string, query: string, filename: string, geniusUrl: Option<string>,
                                   files: map<string, Tags>)
    requires SongMetadata(sv, token, query, geniusUrl).Success? && filename in files && sv.takesFrames(filename)
    requires var rec := SongMetadata(sv, token, query, geniusUrl).value;
             var raw := sv.sanitize(rec.song.primaryArtist + " - " + Title(sv.nfkd, rec) + SplitExt(Basename(filename)).1);
             raw != [] && '/' !in raw
    ensures var path := TagOutcome(sv, token, query, filename, geniusUrl, files).1;
            && Split(path).0 == Split(filename).0
            && Collapsed(Split(path).1)
  {
    var rec := SongMetadata(sv, token, query, geniusUrl).value;
    var title := Title(sv.nfkd, rec);
    var artist := rec.song.primaryArtist;
    assert TagOutcome(sv, token, query, filename, geniusUrl, files).1 == RenamedPath(sv.sanitize, title, artist, filename);
    RenameKeepsDirectory(sv.sanitize, title, artist, filename);
  }

  /** After a successful tagging the file is found under the returned path
      holding the new tags; the old name is gone unless the name did not
      change, and no other file has changed. */
  lemma TaggedFileMoved(sv: Services, token: string, query: string, filename: string, geniusUrl: Option<string>,
                        files: map<string, Tags>, rec: MusicRecord)
    requires SongMetadata(sv, token, query, geniusUrl) == Success(rec) && filename in files && sv.takesFrames(filename)
    ensures var e := Embed(sv, token, query, filename, geniusUrl, files);
            var path := e.0.value.1;
            && e.0.Success?
            && path in e.1
            && e.1[path] == TagFrames(sv, rec, sv.artwork(CoverArtUrl(rec)), files[filename])
            && (path != filename ==> filename !in e.1)
            && forall p :: p in files && p != filename && p != path ==> p in e.1 && e.1[p] == files[p]
  {
    var frames := TagFrames(sv, rec, sv.artwork(CoverArtUrl(rec)), files[filename]);
    var e := Embed(sv, token, query, filename, geniusUrl, files);
    assert e.0.Success?;
    MovedFacts(files, filename, frames, e.0.value.1);
  }

  /** Saving a file's tags and renaming it, on the map from path to tags. */
  lemma MovedFacts(files: map<string, Tags>, filename: string, frames: Tags, path: string)
    ensures var after := Moved(files[filename := frames], filename, path);
            && path in after && after[path] == frames
            && (path != filename ==> filename !in after)
            && forall p :: p in files && p != filename && p != path ==> p in after && after[p] == files[p]
  {
  }

  /** The track frame holds no number exactly for a single. */
  lemma TrackTagIffAlbum(sv: Services, token: string, query: string, geniusUrl: Option<string>, before: Tags)
    requires SongMetadata(sv, token, query, geniusUrl).Success?
    ensures var rec := SongMetadata(sv, token, query, geniusUrl).value;
            TagFrames(sv, rec, sv.artwork(CoverArtUrl(rec)), before)["TRCK"] == TrackFrame(3, [None])
            <==> rec.song.album.None?
  {
  }

  /** A single is tagged as its own album, "<title> - Single" by the
      primary artist, with the song's own artwork requested. */
  lemma SingleTags(sv: Services, rec: MusicRecord, artwork: Option<seq<bv8>>, before: Tags)
    requires rec.song.album.None?
    ensures var tags := TagFrames(sv, rec, artwork, before);
            && tags["TALB"] == TextFrame(3, [rec.song.title + " - Single"])
            && tags["TPE2"] == TextFrame(3, [rec.song.primaryArtist])
            && CoverArtUrl(rec) == rec.song.songArtImageUrl
  {
  }

  /** A song on an album is tagged with the album's name and artist, and
      the album's cover is requested. */
  lemma AlbumTags(sv: Services, rec: MusicRecord, artwork: Option<seq<bv8>>, before: Tags)
    requires rec.song.album.Some?
    ensures var tags := TagFrames(sv, rec, artwork, before);
            var album := rec.song.album.value;
            && tags["TALB"] == TextFrame(3, [album.name])
            && tags["TPE2"] == TextFrame(3, [album.artist])
            && CoverArtUrl(rec) == album.coverArtUrl
  {
  }

  /** The gTagger object: the API token it was built with. */
  class Tagger {
    const token: string

    constructor (token: string)
      ensures this.token == token
    {
      this.token := token;
    }

    /** The body of the candidate loop: the page, its song id, its lyrics. */
    method TryUrl(sv: Services, url: string) returns (r: Option<Found>)
      ensures r == Attempt(sv, url)
    {
      var html := sv.page(url);
      if html.None? {
        return None;
      }
      var id := FindSongId(html.value);
      if id.None? {
        return None;
      }
      var div := sv.lyricsDiv(ReplaceBreaks(html.value));
      if div.Unparsable? {
        return None;
      }
      var lyrics: Option<string> := None;
      if div.LyricsText? {
        lyrics := Some(Strip(div.text));
      }
      r := Some(Found(id.value, lyrics));
    }

    /** The loop of `__get_genius_data`: the candidates tried in order until
        one yields a song id. */
    method FirstWorkingUrl(sv: Services, urls: seq<string>, raised: bool) returns (r: Result<Found, Failure>)
      ensures r == FirstCandidate(Attempter(sv), urls, raised)
    {
      ghost var attempt := Attempter(sv);
      assert urls[0..] == urls;
      for i := 0 to |urls|
        invariant FirstCandidate(attempt, urls[i..], raised) == FirstCandidate(attempt, urls, raised)
      {
        var found := TryUrl(sv, urls[i]);
        assert found == attempt(urls[i]);
        SkipFailedCandidate(attempt, urls, i, raised);
        if found.Some? {
          return Success(found.value);
        }
      }
      assert urls[|urls|..] == [];
      r := Failure(if raised then SearchFailed else SongNotFound);
    }

    method GetGeniusData(sv: Services, query: string, geniusUrl: Option<string>) returns (r: Result<Found, Failure>)
      ensures r == GeniusData(sv, query, geniusUrl)
    {
      var candidates := Candidates(sv, query, geniusUrl);
      r := FirstWorkingUrl(sv, candidates.urls, candidates.raised);
    }

    method GetSongMetadata(sv: Services, query: string, geniusUrl: Option<string>) returns (r: Result<MusicRecord, Failure>)
      ensures r == SongMetadata(sv, token, query, geniusUrl)
    {
      var found := GetGeniusData(sv, query, geniusUrl);
      if found.Failure? {
        return Failure(found.error);
      }
      var song := sv.api(token, found.value.songId);
      if song.None? {
        return Failure(ApiFailed);
      }
      var trackNumber: Option<int> := None;
      if song.value.album.Some? {
        var n := TrackNumber(sv, song.value.album.value.url, song.value.url);
        if n.Failure? {
          return Failure(n.error);
        }
        trackNumber := Some(n.value);
      }
      r := Success(MusicRecord(song.value, found.value.lyrics, trackNumber));
    }

    /** The frame assignments of `__embed_metatags` on the opened file,
        the cover art fetched on the way; a format that refuses the first
        frame stops it there with nothing changed. */
    method WriteFrames(sv: Services, file: AudioFile, rec: MusicRecord) returns (ok: bool)
      modifies file
      ensures ok == file.takesFrames
      ensures file.frames == if ok then TagFrames(sv, rec, sv.artwork(CoverArtUrl(rec)), old(file.frames)) else old(file.frames)
    {
      ghost var before := file.frames;
      var title := Title(sv.nfkd, rec);
      var artist := rec.song.primaryArtist;
      ok := file.Set("TIT2", TextFrame(3, [title]));
      if !ok {
        return;
      }
      ok := file.Set("TPE1", TextFrame(3, [artist]));
      var (album, albumArtist) := AlbumInfo(rec);
      ok := file.Set("TALB", TextFrame(3, [album]));
      ok := file.Set("TPE2", TextFrame(3, [albumArtist]));
      ok := file.Set("USLT::XXX", LyricsFrame(1, "XXX", "", rec.lyrics));
      ok := file.Set("TRCK", TrackFrame(3, [rec.trackNumber]));
      var artwork := sv.artwork(CoverArtUrl(rec));
      if artwork.Some? {
        ok := file.Set("APIC:", PictureFrame(3, "image/jpeg", 3, "", artwork.value));
      }
      assert file.frames == TagFrames(sv, rec, artwork, before);
    }

    method EmbedMetatags(sv: Services, disk: Disk, query: string, filename: string, geniusUrl: Option<string>)
      returns (r: Result<(string, string), Failure>)
      modifies disk
      ensures (r, disk.files) == Embed(sv, token, query, filename, geniusUrl, old(disk.files))
    {
      ghost var files := disk.files;
      var info := GetSongMetadata(sv, query, geniusUrl);
      if info.Failure? {
        EmbedNoRecord(sv, token, query, filename, geniusUrl, files);
        return Failure(info.error);
      }
      var rec := info.value;
      var file := disk.Open(filename, sv.takesFrames);
      if file == null {
        EmbedNoFile(sv, token, query, filename, geniusUrl, files);
        return Failure(CannotOpen);
      }
      var tagged := WriteFrames(sv, file, rec);
      if !tagged {
        EmbedUntaggable(sv, token, query, filename, geniusUrl, files);
        return Failure(CannotTag);
      }
      file.Save(disk);
      var title := Title(sv.nfkd, rec);
      var artist := rec.song.primaryArtist;
      var newPath := RenamedPath(sv.sanitize, title, artist, filename);
      disk.Rename(filename, newPath);
      r := Success((artist + " - " + title, newPath));
      EmbedWritten(sv, token, query, filename, geniusUrl, files, rec);
    }

    method Tag(sv: Services, disk: Disk, query: string, filename: string, geniusUrl: Option<string>)
      returns (title: string, path: string)
      modifies disk
      ensures (title, path) == TagOutcome(sv, token, query, filename, geniusUrl, old(disk.files))
      ensures disk.files == Embed(sv, token, query, filename, geniusUrl, old(disk.files)).1
    {
      var r := EmbedMetatags(sv, disk, query, filename, geniusUrl);
      if r.Success? {
        title, path := r.value.0, r.value.1;
      } else {
        title, path := query, filename;
      }
    }
  }
}
