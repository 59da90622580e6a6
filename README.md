# gTagger in Dafny

gTagger tags audio files with song metadata from Genius. For each file it:
- derives a search query from the file name (optionally prefixed by `--query`);
- finds the song's Genius page among the search results, or uses a URL given on the command line;
- reads the song id out of the page's markup, and the lyrics out of its lyrics `div`;
- asks the Genius API for the song record, and looks up the track number on the album page when the song is on an album;
- writes the ID3 frames (title, artist, album, album artist, lyrics, track number, and cover art when it could be fetched), saves the file, and renames it to `"<artist> - <title><ext>"` in the same directory.

A file that cannot be tagged is reported, and the run goes on with the next file. The file is left as it was when the failure comes before the tags are saved. When the rename fails after the save, the new tags are already written, yet `tag` still reports the file as not tagged (gtagger/gtagger.py:155-158 and 162-167).

This project models that pipeline and proves properties of the model. The modules follow the program's structure:

| module | file | what it holds |
|---|---|---|
| `Wrappers` | wrappers.dfy | `Option` and `Result` |
| `PyStr` | pystr.dfy | Python string and int behaviour the program relies on: `isspace`, `in`, `split()[0]`, `int()`, `strip()` |
| `PosixPath` | posixpath.dfy | `os.path.split`, `join`, `basename`, `splitext` with POSIX semantics |
| `SongId` | songid.dfy | the leftmost match of `(?i)"song ?id.?":([0-9]+)` written out as a scan |
| `Markup` | markup.dfy | the `<br/?>` rewrite; the track number from an album page's chart rows |
| `Record` | record.dfy | the API's song record, the merged record, the "Ft." to "feat." rewrite, album info, cover-art choice |
| `Naming` | naming.dfy | the new file name: sanitised, whitespace collapsed, in the old directory |
| `Container` | container.dfy | the tag library and the disk: `Disk` (path to tags, open, rename) and `AudioFile` (frames in memory, set, save) |
| `GTagger` | gtagger.dfy | the `gTagger` class: candidate selection, record assembly, tag writing, `tag` |
| `Cli` | cli.dfy | `is_audio`, the file-gathering loop, the per-file query, the tagging loop |

The collaborators the program calls but does not implement are parameters. They form the fields of `GTagger.Services`:
- Google search;
- the HTTP requests;
- the two BeautifulSoup lookups (the lyrics lookup also says when the parser raises on the page);
- mutagen's verdict on a file's format: whether its tags accept ID3 frames;
- the Genius API;
- the artwork download;
- NFKD normalisation;
- `sanitize_filename`.

`None` stands for a call that raises. The loops and in-place updates of the program are methods (`Tagger.FirstWorkingUrl`, `Tagger.EmbedMetatags`, `Cli.CollectFiles`, `Cli.TagFiles`). Each method is proved equal to a pure function, and the lemmas state the properties of that function.

Three facts about the code that the model follows:
- A cover-art request that answers with an HTTP error status (a 404, say) does not raise in `requests`. Its body is written as the APIC frame. Only a request that raises leaves the frame out (gtagger/gtagger.py:148-152).
- No genre is scraped or written. `TCON` is imported but never used (gtagger/gtagger.py:10).
- A rename failure is not propagated out of `tag`. `tag` catches every exception from `__embed_metatags`, so the caller gets back the query and the file name (gtagger/gtagger.py:160-167). The model's rename never fails; see "Left out".

## Model

| member | source | states |
|---|---|---|
| PyStr.FirstToken | gtagger/gtagger.py:73 | `split()[0]` is absent exactly when the text is all whitespace; otherwise it is a non-empty word without whitespace, preceded only by whitespace and followed by whitespace or the end |
| PyStr.ParseInt | gtagger/gtagger.py:73 | for tokens of at most 4300 digits, `int()` of a token succeeds exactly when, after one optional sign, it is digits with single underscores between digits; the value is then the digits' decimal value, negated for a leading '-'; on a plain digit string it is that string's decimal value |
| PyStr.ParseIntRejects | gtagger/gtagger.py:73 | a token holding any character that is neither a digit nor an underscore, other than one leading sign, makes `int()` raise |
| PyStr.DecimalValueOfDecimal | gtagger/gtagger.py:73 | the decimal digits of n read back as n |
| PyStr.ParseIntOfStr | gtagger/gtagger.py:73 | `int(str(n)) == n` for every integer of at most 4300 digits, so a track number printed by Genius parses back to itself |
| PyStr.RStrip | gtagger/gtagger.py:58 | `rstrip()` is a prefix not ending in whitespace, and what it removes is all whitespace |
| PyStr.Strip | gtagger/gtagger.py:58 | `strip()` is empty exactly when the text is all whitespace; otherwise it starts and ends with non-whitespace and is a contiguous slice with only whitespace around it |
| PosixPath.RFind | gtagger/gtagger.py:115 | the index of the last occurrence, -1 when there is none, and no occurrence after it |
| PosixPath.RStripSlashes | gtagger/gtagger.py:115 | a prefix not ending in '/', the removed part all slashes |
| PosixPath.Split | gtagger/gtagger.py:115 | the tail is a slash-free suffix of the path and the head a prefix of it; only slashes lie between them, and a slash comes right before a tail that is not the whole path; the head is empty exactly when the path has no '/', and otherwise is the root or does not end in '/' |
| PosixPath.Join | gtagger/gtagger.py:121 | an absolute name replaces the directory; otherwise the result is the directory, then at most one '/', then the name, with a '/' right before the name whenever the directory is not empty, and a '/' added exactly when the directory is not empty and does not end in one |
| PosixPath.BasenameIsLastComponent | gtagger/gtagger.py:115 | the base name is the slice after the last '/' and holds no '/' |
| PosixPath.LStripDots | gtagger/gtagger.py:116 | `lstrip('.')` is a suffix not starting with '.', the removed part all dots |
| PosixPath.StrippedHasDot | gtagger/gtagger.py:116 | the documented rule of `splitext` (leading dots are ignored, then a dot remains) holds exactly when some non-dot character comes before a dot |
| PosixPath.LeadingDotIgnored | gtagger/gtagger.py:116 | a leading dot neither starts nor ends a stem |
| PosixPath.NoStemDot | gtagger/gtagger.py:116 | when the last dot has only dots before it (or there is none), no dot follows a non-dot |
| PosixPath.ExtStart | gtagger/gtagger.py:116 | an extension starts exactly when a non-dot precedes a dot, and then at the last dot |
| PosixPath.ExtensionShape | gtagger/gtagger.py:116 | what `splitext` cuts off is a dot followed by neither dots nor slashes |
| PosixPath.LastDotExtension | gtagger/gtagger.py:116 | from the last dot of a slash-free name to its end is a well-formed extension |
| PosixPath.SplitExt | gtagger/gtagger.py:116 | root + extension is the path; the extension is empty or well-formed, and non-empty exactly when the last component has a dot after a non-dot |
| PosixPath.SplitJoin | gtagger/gtagger.py:115-121 | splitting `join(split(p)[0], name)` for a plain name gives back the same directory and that name |
| PosixPath.LastSlash | gtagger/gtagger.py:121 | after a head that is empty or ends in '/', a slash-free name leaves the head's last slash as the last one |
| SongId.KeyEnd | gtagger/gtagger.py:26 | a key match ends after `":` with at least nine characters and starts with a quote and an 's' under case folding |
| SongId.DigitsAfter | gtagger/gtagger.py:26 | the captured group is the maximal non-empty run of ASCII digits right after the key |
| SongId.MatchAt | gtagger/gtagger.py:26 | a match at a position captures non-empty digits and starts with a quote |
| SongId.SearchFrom | gtagger/gtagger.py:26 | no result exactly when no position matches; otherwise the match at the leftmost matching position |
| SongId.FindSongId | gtagger/gtagger.py:26-35 | the song id is absent (and the fetch raises) exactly when no position matches; otherwise it is the non-empty digit run of the leftmost match |
| SongId.DigitRunOf | gtagger/gtagger.py:26 | the digit run of digits followed by a non-digit is exactly those digits |
| SongId.KeyedMatch | gtagger/gtagger.py:26 | `"songId":` followed by digits and a non-digit matches at its quote and captures those digits |
| SongId.SongIdOfKeyedPage | gtagger/gtagger.py:26-35 | a page whose first quote opens `"songId":` yields exactly the digits after it, whatever follows |
| Markup.ReplaceBreaks | gtagger/gtagger.py:50 | the rewrite never lengthens the markup |
| Markup.ReplaceBreaksSplit | gtagger/gtagger.py:50 | markup is rewritten piecewise at any cut followed by '<': no break straddles such a cut |
| Markup.FirstStepBeforeCut | gtagger/gtagger.py:50 | before such a cut, the rewrite takes the same first step on `a` as on `a + b` |
| Markup.NoBreakAcrossCut | gtagger/gtagger.py:50 | a break that starts before such a cut ends before it |
| Markup.LeadingBreak | gtagger/gtagger.py:50 | a leading `<br>` or `<br/>` becomes one newline |
| Markup.ReplaceBreaksAt | gtagger/gtagger.py:50 | each `<br>` and each `<br/>` becomes exactly one "\n", and the markup on either side is rewritten as on its own |
| Markup.CopiesFirst | gtagger/gtagger.py:50 | markup not starting with a break has its first character copied |
| Markup.BreaksCopiedPrefix | gtagger/gtagger.py:50 | up to the first newline it writes, the rewrite copies its input |
| Markup.BreakShift | gtagger/gtagger.py:50 | a break after a one-character head is a break of the rest, one position earlier |
| Markup.NoBreakAfterHead | gtagger/gtagger.py:50 | one character before break-free text can only start a break itself |
| Markup.CopiedFirstNotPattern | gtagger/gtagger.py:50 | a copied first character starts no newline-free pattern that the input did not start |
| Markup.CopiedFirstNoBreak | gtagger/gtagger.py:50 | a copied first character starts no break in the output |
| Markup.NoBreaksRemain | gtagger/gtagger.py:50 | after the rewrite no `<br>` or `<br/>` is left anywhere |
| Markup.ReplaceBreaksIdentity | gtagger/gtagger.py:50 | markup without breaks comes through unchanged |
| Markup.ReplaceBreaksIdempotent | gtagger/gtagger.py:50 | rewriting twice is rewriting once |
| Markup.FirstRowWith | gtagger/gtagger.py:72 | the index of the first row whose markup contains the URL, absent when no row does |
| Markup.TrackFromRows | gtagger/gtagger.py:71-73 | "no row" (IndexError) exactly when no row mentions the song; "blank row" (IndexError) exactly when the first row that does has only whitespace; "not an integer" (ValueError) exactly when its first word does not parse; when it parses, the track number is `int` of that word |
| Markup.TrackOfNumberedRow | gtagger/gtagger.py:71-73 | a first-mentioning row whose text starts with `str(n)` and a space gives track n |
| Record.ReplaceFt | gtagger/gtagger.py:110 | the rewrite never shortens the title |
| Record.FtCopiedPrefix | gtagger/gtagger.py:110 | up to the first 'f' it writes, the rewrite copies its input |
| Record.NoFtRemains | gtagger/gtagger.py:110 | no "Ft." is left after the rewrite |
| Record.ReplaceFtIdentity | gtagger/gtagger.py:110 | a title without "Ft." is unchanged |
| Record.ReplaceFtIdempotent | gtagger/gtagger.py:110 | rewriting twice is rewriting once |
| Record.ReplaceFtFirst | gtagger/gtagger.py:110 | the rewrite consumes a leading "Ft." as "feat." or copies a leading character |
| Record.CleanCutShift | gtagger/gtagger.py:110 | a cut no "Ft." straddles stays clean after dropping a prefix of the left part |
| Record.SameFirstStep | gtagger/gtagger.py:110 | across a clean cut, the first step on `a + b` is the first step on `a` |
| Record.ReplaceFtAppend | gtagger/gtagger.py:110 | across a cut no "Ft." straddles, the two parts are rewritten independently |
| Record.ReplaceFtAt | gtagger/gtagger.py:110 | each "Ft." becomes "feat." and the text on either side is rewritten as on its own: all other characters are kept, in order |
| Record.Title | gtagger/gtagger.py:109-111 | a title with featured artists but no "Ft." goes to NFKD normalisation unchanged |
| Record.TitleFeaturing | gtagger/gtagger.py:109-111 | in a title with "Ft.", that "Ft." becomes "feat." and the text around it is rewritten on its own before normalisation |
| Record.AlbumInfo | gtagger/gtagger.py:103-106 | an album track gets the album's name and artist; a single gets "<title> - Single" and the primary artist |
| Record.CoverArtUrl | gtagger/gtagger.py:97-100 | an album track uses the album's cover; a single uses the song's own artwork |
| Naming.CollapseWhitespace | gtagger/gtagger.py:120 | the result has no whitespace but ' ' and no two whitespace characters in a row; it is empty only for empty input, starts with a space exactly when the input starts with whitespace, and adds no other character |
| Naming.WordsOfSpaces | gtagger/gtagger.py:120 | leading whitespace contributes no non-whitespace character |
| Naming.CollapseKeepsWords | gtagger/gtagger.py:120 | collapsing keeps every non-whitespace character, in order |
| Naming.CollapseFixesCollapsed | gtagger/gtagger.py:120 | a collapsed name is unchanged |
| Naming.CollapseIdempotent | gtagger/gtagger.py:120 | collapsing twice is collapsing once |
| Naming.CollapseSplit | gtagger/gtagger.py:120 | text that ends in non-whitespace is collapsed on its own, whatever follows |
| Naming.FirstCollapseStep | gtagger/gtagger.py:120 | before such a cut, collapsing takes the same first step on `a` as on `a + t` |
| Naming.SpanOfPrefix | gtagger/gtagger.py:120 | a whitespace run that stops inside `a` stops at the same place in `a + t` |
| Naming.CollapseLeadingRun | gtagger/gtagger.py:120 | a leading whitespace run becomes one space |
| Naming.CollapseRun | gtagger/gtagger.py:120 | every maximal whitespace run becomes exactly one ' ', and the text on either side is collapsed as on its own |
| Naming.NewName | gtagger/gtagger.py:114-120 | the new name is collapsed, has the same non-whitespace characters in the same order as the sanitised "<artist> - <title><ext>", is empty only when that is, and has no '/' when that has none |
| Naming.RenamedPath | gtagger/gtagger.py:114-121 | for a name that is not absolute, the new path is the old directory, at most one '/', then the new name |
| Naming.RenameKeepsDirectory | gtagger/gtagger.py:114-123 | the renamed path splits into the old directory and the new name, which is collapsed, when the sanitiser leaves a non-empty name without '/' |
| Container.Moved | gtagger/gtagger.py:122 | `os.rename`: the destination holds the source's tags, the source is gone unless it is the destination, nothing else changes and nothing else appears |
| Container.Disk.Open | gtagger/gtagger.py:131 | `File(path)` gives a fresh handle on the file's tags exactly when the file can be opened, carrying whether its format accepts ID3 frames |
| Container.Disk.Rename | gtagger/gtagger.py:122 | the disk afterwards is the rename of the disk before |
| Container.AudioFile.Set | gtagger/gtagger.py:136-150 | one frame assigned by key, the others kept, when the format accepts ID3 frames; otherwise the assignment raises and the frames are unchanged |
| Container.AudioFile.Save | gtagger/gtagger.py:155 | the file's tags on disk become its frames in memory |
| GTagger.Candidates | gtagger/gtagger.py:41 | an explicit URL is the only candidate; otherwise the search's results, at most five, a prefix of what the search yields; everything it yields (including its error) when it yields fewer; when it yields five or more, exactly the first five and no error |
| GTagger.Attempt | gtagger/gtagger.py:46-64 | a candidate works exactly when its page is fetched, holds a song id and the HTML parser does not raise on it |
| GTagger.AttemptFound | gtagger/gtagger.py:47-62 | a working candidate gives the page's song id (non-empty digits), no lyrics exactly when the parsed page has no lyrics div, and otherwise the div's text, stripped |
| GTagger.SamePagesSameAttempts | gtagger/gtagger.py:43-62 | an attempt depends only on the page fetch and the lyrics lookup |
| GTagger.FirstCandidate | gtagger/gtagger.py:43-66 | success exactly when some candidate works, and then the first working one's result; otherwise "not found", or the search's own error when it raised |
| GTagger.FirstCandidateStep | gtagger/gtagger.py:43-64 | the loop returns on a working first candidate and otherwise goes on with the rest |
| GTagger.SkipFailedCandidate | gtagger/gtagger.py:43-64 | at candidate i: a working one is the answer, a failing one hands over to the next |
| GTagger.GeniusData | gtagger/gtagger.py:38-66 | `__get_genius_data` fails only with "not found" or the search's own error |
| GTagger.GeniusDataPicksFirst | gtagger/gtagger.py:38-66 | it succeeds exactly when some candidate's page works, then with the first working candidate's id and lyrics; otherwise "not found", or the search's error when the search raised |
| GTagger.LaterCandidatesIgnored | gtagger/gtagger.py:43-62 | once a candidate works, candidates after it (and a later search error) change nothing |
| GTagger.SameIdsSameWinner | gtagger/gtagger.py:43-66 | attempts that agree on which pages work and on their ids pick the same id |
| GTagger.SameAttemptsSameResult | gtagger/gtagger.py:43-66 | attempts that agree on every URL give the same result |
| GTagger.LyricsDoNotDecideWinner | gtagger/gtagger.py:53-62 | whatever the lyrics lookup finds, provided the parser raises on the same pages, the same candidate wins with the same song id, and failures are the same |
| GTagger.ExplicitUrlOnly | gtagger/gtagger.py:41 | with an explicit URL the search is never consulted, and the result is that page's or "not found" |
| GTagger.TrackNumber | gtagger/gtagger.py:68-73 | the album page request fails exactly when it raises; otherwise the result is the rows' lookup: its number, or its failure |
| GTagger.SongMetadata | gtagger/gtagger.py:75-94 | on success: the API's song for the found id, the scraped lyrics unchanged, a track number exactly when there is an album, and that number being the album page's; failure exactly when the search, the API or (for an album) the track lookup fails |
| GTagger.SingleRecord | gtagger/gtagger.py:89-92 | a single's record is the API song with the lyrics and no track number |
| GTagger.SingleSkipsAlbumPage | gtagger/gtagger.py:89-92 | a single's record does not depend on the album-page service and has no track number |
| GTagger.TagFrames | gtagger/gtagger.py:134-150 | the tags gain exactly TIT2, TPE1, TALB, TPE2, USLT::XXX and TRCK with the values, encodings, language and descriptions written, plus APIC only when the artwork was fetched; every other key keeps its frame |
| GTagger.TrackTagIffAlbum | gtagger/gtagger.py:146 | the track frame holds `[None]` exactly for a single |
| GTagger.SingleTags | gtagger/gtagger.py:97-106 | a single is tagged with album "<title> - Single" by the primary artist, and the song's own artwork is requested |
| GTagger.AlbumTags | gtagger/gtagger.py:97-106 | an album track is tagged with the album's name and artist, and the album's cover is requested |
| GTagger.Embed | gtagger/gtagger.py:125-158 | on failure nothing on disk changes, and it fails exactly when the record cannot be assembled, the file cannot be opened, or its format refuses ID3 frames; on success it returns "<artist> - <title>" and the renamed path, and the disk is the tagged file moved there |
| GTagger.EmbedNoRecord | gtagger/gtagger.py:125-128 | when the record cannot be assembled, `__embed_metatags` fails with that failure and no file changes |
| GTagger.EmbedNoFile | gtagger/gtagger.py:131-136 | when the file cannot be opened, it fails with "cannot open" and no file changes |
| GTagger.EmbedUntaggable | gtagger/gtagger.py:131-136 | when the file's format refuses ID3 frames, the first assignment raises: it fails with "cannot tag" and no file changes |
| GTagger.EmbedWritten | gtagger/gtagger.py:125-158 | otherwise (record assembled, file opened, format accepting ID3 frames) it returns "<artist> - <title>" and the renamed path, and the disk is the tagged file moved there |
| GTagger.TagOutcome | gtagger/gtagger.py:160-167 | `tag` returns what `__embed_metatags` returns, or the query and the file name when it fails |
| GTagger.TagFallback | gtagger/gtagger.py:160-167 | when tagging fails, `tag` returns the query and the file name and no file changes |
| GTagger.TaggedFileStaysInDirectory | gtagger/gtagger.py:114-123 | the path `tag` returns is in the file's old directory and its name is collapsed |
| GTagger.MovedFacts | gtagger/gtagger.py:155-158 | saving the frames and renaming leaves the frames under the new path, the old name gone unless unchanged, other files untouched |
| GTagger.TaggedFileMoved | gtagger/gtagger.py:125-158 | after tagging, the returned path holds the new tags, the old name is gone unless unchanged, and every other file is as it was |
| GTagger.Tagger.TryUrl | gtagger/gtagger.py:46-62 | one pass of the loop body computes the attempt's result |
| GTagger.Tagger.FirstWorkingUrl | gtagger/gtagger.py:43-66 | the loop over the candidates computes the first working candidate's result or the failure |
| GTagger.Tagger.GetGeniusData | gtagger/gtagger.py:38-66 | `__get_genius_data` computes the candidate selection above |
| GTagger.Tagger.GetSongMetadata | gtagger/gtagger.py:75-94 | `__get_song_metadata` computes the assembled record or its failure |
| GTagger.Tagger.WriteFrames | gtagger/gtagger.py:134-152 | the frame assignments leave the opened file's frames as `TagFrames` says, with the artwork fetched for the record's cover URL, or, when the format refuses ID3 frames, stop at the first with the frames unchanged |
| GTagger.Tagger.EmbedMetatags | gtagger/gtagger.py:125-158 | the open, the frame assignments, the save and the rename leave the disk as `Embed` says and return its result |
| GTagger.Tagger.Tag | gtagger/gtagger.py:160-167 | `tag` returns the named result or, on failure, its arguments, and the disk is as `Embed` leaves it |
| Cli.IsAudio | gtagger/cli.py:38-39 | every accepted extension is one `splitext` can return, a dot and three or four more characters |
| Cli.AudioExtensionShape | gtagger/cli.py:38-39 | every audio extension is a dot followed by lower-case letters or digits |
| Cli.UpperCaseNotAudio | gtagger/cli.py:38-39 | the test is case-sensitive: an extension with an upper-case letter is not audio |
| Cli.Expand | gtagger/cli.py:53 | a directory gives one path per entry, in listing order, each joined to the directory; anything else gives itself |
| Cli.Filter | gtagger/cli.py:56 | the short-list is never longer than the list, and a path is kept exactly when it is in the list and passes the test |
| Cli.FilterAppend | gtagger/cli.py:56 | the short-list of a concatenation is the concatenation of the short-lists, so order is kept |
| Cli.CollectAppend | gtagger/cli.py:51-59 | the files of a longer source list extend those of its prefix |
| Cli.CollectMembers | gtagger/cli.py:51-59 | a path is gathered exactly when some source contributes it |
| Cli.AudioFiles | gtagger/cli.py:49-59 | every file gathered for tagging has an audio extension |
| Cli.AudioFilesMembers | gtagger/cli.py:51-59 | a path is to be tagged exactly when it has an audio extension and comes from the expansion of some source |
| Cli.DirectFile | gtagger/cli.py:53-56 | a file named directly is kept exactly when its extension is audio, otherwise silently dropped |
| Cli.CollectFiles | gtagger/cli.py:49-59 | the gathering loop computes the files of the sources, source by source |
| Cli.Stem | gtagger/cli.py:65-67 | the stem has no '/' and with the extension gives back the base name |
| Cli.QueryFor | gtagger/cli.py:65-71 | the query ends with the stem, which with the extension gives back the file's name; it is the stem alone without `--query`, and with it the given text and a space come first |
| Cli.Batch | gtagger/cli.py:63-79 | one outcome per file |
| Cli.BatchStep | gtagger/cli.py:63-79 | the first file is tagged, then the rest on the files it left |
| Cli.BatchAppend | gtagger/cli.py:63-79 | tagging a list in two parts is tagging the first part, then the second from where the first left off |
| Cli.FailureDoesNotStop | gtagger/cli.py:63-79 | a file that cannot be tagged gives back its query and name, changes nothing, and the rest of the list is tagged as if it were absent |
| Cli.ResumesAtStart | gtagger/cli.py:63-79 | before the loop the whole batch is still to do |
| Cli.ResumesAfterStep | gtagger/cli.py:63-79 | one file tagged moves the loop on by one |
| Cli.ResumesAtEnd | gtagger/cli.py:63-79 | after the loop the outcomes and the disk are the whole batch's |
| Cli.TagFiles | gtagger/cli.py:63-79 | the tagging loop tags every file once, in order, each on the disk the ones before it left, whatever happened to them |

## Left out

- Network access is not modelled. This covers the Google search, every `requests.get` and the Genius API. They are parameters; the model sees only their results, and `None` stands for a request that raises.
- The HTML parser is not modelled. The lyrics `div` lookup and the `chart_row` rows are parameters: the lookup says whether the parser raised, found no div, or found the div's text; the rows are a sequence of (markup, text) rows.
- `unicodedata.normalize('NFKD')` and `pathvalidate.sanitize_filename` are parameters, as foreign calls.
- The tag library's binary format is not modelled. A file's tags are a map from frame key to frame value.
- A failure inside `save()` is not modelled.
- Paths are not normalised. The disk is keyed by path strings, so two spellings of one file ("music//X.mp3" and "music/X.mp3", "./X.mp3" and "X.mp3", or a link and its target) are two keys. `os.rename` between two spellings of the same file is a no-op on a real file system. The model moves the entry and drops the old key, so `GTagger.TaggedFileMoved`'s "old name gone" holds of the model only where no such alias is involved.
- The error of `os.rename` is not modelled, and neither is renaming across directories that do not exist. `Disk.Rename` follows the POSIX rule that the destination is replaced.
- The errors of `os.listdir` and `os.path.isdir` are not modelled. The file system seen by `cli` is a parameter.
- `read_token`, argparse, `print` and the `log` callback are not modelled. These are user input, configuration files and console output.
- Windows paths (`ntpath`) are not modelled; the model follows POSIX `os.path`.
- The lyrics `div` class test `(?i)^lyrics` is part of the parser lookup passed in, not modelled.
- `gsearch(..., stop=5)` is modelled as the first five results the generator yields, together with whether it stopped by raising. Pausing between result pages is not modelled.
- `PyStr.ParseInt`: only ASCII digits are accepted. Python's `int()` also accepts other Unicode decimal digits, and surrounding whitespace cannot occur here because the token comes from `split()`.
- `PyStr.ParseInt`: CPython's limit on integer string conversion is not modelled. `int()` raises `ValueError` on a token of more than 4300 digits; the model parses any length. A track token that long does not occur in Genius pages.
- `PyStr.ParseIntOfStr`: the round trip is stated for every integer. In CPython it holds for integers of at most 4300 digits, since `str(n)` itself raises beyond that limit.
- `SongId.MatchAt`: case-insensitive matching covers the pattern's letters as Python folds them (including U+017F, U+0130 and U+0131). The scan is the leftmost match; the regex engine's other internals are not modelled.
- Which formats accept ID3 frames is mutagen's, decided from the file's contents; the model takes it as the parameter `takesFrames` of the file's path. A refusing format (ASF for .wma, bare AAC) raises at the first assignment, TIT2, and the file is left as it was.
- The `TypeError` raised when `File()` returns `None` for an unrecognised file is modelled as the file being absent from `Disk.files`. The result is the same failure, `CannotOpen`.
