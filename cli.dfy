/** The command line driver: expand the sources into the audio files to
    tag, derive each file's search query from its name, and tag the files
    one after the other. */
module Cli {
  import opened Wrappers
  import opened PosixPath
  import opened Container
  import opened GTagger

  /** The extensions `is_audio` accepts, compared exactly (case matters). */
  const AudioExtensions: seq<string> := [".mp3", ".aac", ".wav", ".wma", ".ogg", ".m3u", ".flac"]

  /** `is_audio`: every accepted extension is one splitext can return, a
      dot and three or four more characters. */
  predicate IsAudio(ext: string)
    ensures IsAudio(ext) ==> IsExtension(ext) && 4 <= |ext| <= 5
  {
    ext in AudioExtensions
  }

  /** Every accepted extension is a dot and lower-case letters and digits.
      So an upper-case extension such as ".MP3" is never accepted. */
  lemma AudioExtensionShape(ext: string)
    requires IsAudio(ext)
    ensures forall i :: 1 <= i < |ext| ==> 'a' <= ext[i] <= 'z' || '0' <= ext[i] <= '9'
  {
    assert ext[1..] in [['m', 'p', '3'], ['a', 'a', 'c'], ['w', 'a', 'v'], ['w', 'm', 'a'], ['o', 'g', 'g'], ['m', '3', 'u'], ['f', 'l', 'a', 'c']];
  }

  /** The test is case-sensitive: an extension with an upper-case letter is
      not an audio one. */
  lemma UpperCaseNotAudio(ext: string, i: int)
    requires 0 <= i < |ext| && 'A' <= ext[i] <= 'Z'
    ensures !IsAudio(ext)
  {
    if IsAudio(ext) {
      AudioExtensionShape(ext);
    }
  }

  /** The parts of the file system the driver reads: `os.path.isdir` and
      `os.listdir`. */
  datatype FileSystem = FileSystem(isDir: string -> bool, listDir: string -> seq<string>)

  /** A directory stands for its entries joined to it, in listing order;
      anything else stands for itself. */
  function Expand(fs: FileSystem, src: string): (r: seq<string>)
    ensures fs.isDir(src) ==> |r| == |fs.listDir(src)| && forall k :: 0 <= k < |r| ==> r[k] == Join(src, fs.listDir(src)[k])
    ensures !fs.isDir(src) ==> r == [src]
  {
    if fs.isDir(src) then seq(|fs.listDir(src)|, k requires 0 <= k < |fs.listDir(src)| => Join(src, fs.listDir(src)[k]))
    else [src]
  }

  /** The test applied to every path: `is_audio(os.path.splitext(p)[1])`. */
  predicate HasAudioExtension(path: string)
  {
    IsAudio(SplitExt(path).1)
  }

  /** The short-list `[p for p in paths if keep(p)]`, in order: a path
      survives exactly when it passes the test. */
  function Filter(keep: string -> bool, paths: seq<string>): (r: seq<string>)
    ensures |r| <= |paths|
    ensures forall p :: p in r <==> p in paths && keep(p)
  {
    if paths == [] then []
    else
      var rest := Filter(keep, paths[1..]);
      assert forall p :: p in paths <==> p == paths[0] || p in paths[1..];
      (if keep(paths[0]) then [paths[0]] else []) + rest
  }

  /** The short-list of a concatenation is the concatenation of the
      short-lists: filtering keeps the order. */
  lemma {:induction false} FilterAppend(keep: string -> bool, a: seq<string>, b: seq<string>)
    ensures Filter(keep, a + b) == Filter(keep, a) + Filter(keep, b)
  {
    if a == [] {
      assert a + b == b;
    } else {
      assert (a + b)[0] == a[0];
      assert (a + b)[1..] == a[1..] + b;
      FilterAppend(keep, a[1..], b);
      var head := if keep(a[0]) then [a[0]] else [];
      assert Filter(keep, a + b) == head + (Filter(keep, a[1..]) + Filter(keep, b));
      assert Filter(keep, a) == head + Filter(keep, a[1..]);
    }
  }

  /** The files gathered from the sources, source by source in the order
      given, `each` giving the files a single source contributes. */
  function Collect(each: string -> seq<string>, sources: seq<string>): seq<string>
  {
    if sources == [] then []
    else Collect(each, sources[..|sources| - 1]) + each(sources[|sources| - 1])
  }

  /** What one source contributes: its expansion, short-listed to audio
      files. */
  function AudioIn(fs: FileSystem): string -> seq<string>
  {
    src => Filter(HasAudioExtension, Expand(fs, src))
  }

  /** The files to tag. */
  function AudioFiles(fs: FileSystem, sources: seq<string>): (r: seq<string>)
    ensures forall p :: p in r ==> HasAudioExtension(p)
  {
    var r := Collect(AudioIn(fs), sources);
    assert forall p :: p in r ==> HasAudioExtension(p) by {
      forall p | p in r ensures HasAudioExtension(p) {
        CollectMembers(AudioIn(fs), sources, p);
        var i :| 0 <= i < |sources| && p in AudioIn(fs)(sources[i]);
      }
    }
    r
  }

  /** The list is built source after source: the files of a longer list of
      sources extend those of a shorter one. */
  lemma {:induction false} CollectAppend(each: string -> seq<string>, a: seq<string>, b: seq<string>)
    ensures Collect(each, a + b) == Collect(each, a) + Collect(each, b)
  {
    if b == [] {
      assert a + b == a;
      assert Collect(each, a) + [] == Collect(each, a);
    } else {
      var b' := b[..|b| - 1];
      var last := each(b[|b| - 1]);
      assert (a + b)[..|a + b| - 1] == a + b';
      assert (a + b)[|a + b| - 1] == b[|b| - 1];
      CollectAppend(each, a, b');
      var ca, cb' := Collect(each, a), Collect(each, b');
      assert Collect(each, a + b) == (ca + cb') + last;
      assert Collect(each, b) == cb' + last;
      assert (ca + cb') + last == ca + (cb' + last);
    }
  }

  /** A path is gathered exactly when one of the sources contributes it. */
  lemma {:induction false} CollectMembers(each: string -> seq<string>, sources: seq<string>, p: string)
    ensures p in Collect(each, sources) <==> exists i :: 0 <= i < |sources| && p in each(sources[i])
  {
    if sources != [] {
      var init := sources[..|sources| - 1];
      CollectMembers(each, init, p);
      if exists i :: 0 <= i < |sources| && p in each(sources[i]) {
        var i :| 0 <= i < |sources| && p in each(sources[i]);
        if i < |sources| - 1 {
          assert init[i] == sources[i];
        }
      }
      if exists i :: 0 <= i < |init| && p in each(init[i]) {
        var i :| 0 <= i < |init| && p in each(init[i]);
        assert sources[i] == init[i];
      }
    }
  }

  /** Every file to tag has an audio extension and comes from a source;
      every such file is tagged. */
  lemma AudioFilesMembers(fs: FileSystem, sources: seq<string>, p: string)
    ensures p in AudioFiles(fs, sources) <==>
      IsAudio(SplitExt(p).1) && exists i :: 0 <= i < |sources| && p in Expand(fs, sources[i])
  {
    CollectMembers(AudioIn(fs), sources, p);
    if exists i :: 0 <= i < |sources| && p in AudioIn(fs)(sources[i]) {
      var i :| 0 <= i < |sources| && p in AudioIn(fs)(sources[i]);
    }
    if IsAudio(SplitExt(p).1) && exists i :: 0 <= i < |sources| && p in Expand(fs, sources[i]) {
      var i :| 0 <= i < |sources| && p in Expand(fs, sources[i]);
      assert p in AudioIn(fs)(sources[i]);
    }
  }

  /** A file named directly is kept exactly when its extension is an audio
      one: any other file is silently dropped. */
  lemma DirectFile(fs: FileSystem, src: string)
    requires !fs.isDir(src)
    ensures AudioFiles(fs, [src]) == if IsAudio(SplitExt(src).1) then [src] else []
  {
    assert [src][..0] == [];
    assert Expand(fs, src) == [src];
    assert Collect(AudioIn(fs), [src]) == Collect(AudioIn(fs), []) + Filter(HasAudioExtension, [src]);
    assert [src][1..] == [];
    assert Filter(HasAudioExtension, [src]) == (if HasAudioExtension(src) then [src] else []) + Filter(HasAudioExtension, []);
  }

  /** The first loop of `cli`: each source's short-list added to the list. */
  method CollectFiles(fs: FileSystem, sources: seq<string>) returns (files: seq<string>)
    ensures files == AudioFiles(fs, sources)
  {
    files := [];
    for i := 0 to |sources|
      invariant files == Collect(AudioIn(fs), sources[..i])
    {
      var found := Expand(fs, sources[i]);
      var kept := Filter(HasAudioExtension, found);
      assert kept == AudioIn(fs)(sources[i]);
      assert sources[..i + 1][..i] == sources[..i];
      files := files + kept;
    }
    assert sources[..|sources|] == sources;
  }

  /** The name without its directory and extension. */
  function Stem(path: string): (r: string)
    ensures '/' !in r
    ensures r + SplitExt(Basename(path)).1 == Basename(path)
  {
    SplitExt(Basename(path)).0
  }

  /** The search query for a file: its stem, after the `--query` text and
      a space when that is given. */
  function QueryFor(path: string, prefix: Option<string>): (q: string)
    ensures var s := Stem(path);
            && |s| <= |q| && q[|q| - |s|..] == s
            && s + SplitExt(Basename(path)).1 == Basename(path)
    ensures prefix.None? ==> q == Stem(path)
    ensures prefix.Some? ==>
      && |q| == |prefix.value| + 1 + |Stem(path)|
      && q[..|prefix.value|] == prefix.value && q[|prefix.value|] == ' '
  {
    match prefix
    case None => Stem(path)
    case Some(text) =>
      SpacedParts(text, Stem(path));
      text + " " + Stem(path)
  }

  /** Where the two parts of "<a> <b>" sit. */
  lemma SpacedParts(a: string, b: string)
    ensures var q := a + " " + b;
            && |q| == |a| + 1 + |b|
            && q[..|a|] == a && q[|a|] == ' '
            && q[|q| - |b|..] == b
  {
    var q := a + " " + b;
    assert q[..|a|] == a;
    assert q[|q| - |b|..] == b;
  }

  /** Tagging one file, as the second loop does it: the outcome `tag`
      returns, and the files afterwards. */
  function TagStep(sv: Services, token: string, prefix: Option<string>, geniusUrl: Option<string>)
    : (string, map<string, Tags>) -> ((string, string), map<string, Tags>)
  {
    (path, files) =>
      var query := QueryFor(path, prefix);
      (TagOutcome(sv, token, query, path, geniusUrl, files), Embed(sv, token, query, path, geniusUrl, files).1)
  }

  /** Every file in order, each once, each on the files the ones before it
      left. */
  function Batch(step: (string, map<string, Tags>) -> ((string, string), map<string, Tags>),
                 paths: seq<string>, files: map<string, Tags>): (r: (seq<(string, string)>, map<string, Tags>))
    ensures |r.0| == |paths|
  {
    if paths == [] then ([], files)
    else
      var (first, files') := step(paths[0], files);
      var rest := Batch(step, paths[1..], files');
      ([first] + rest.0, rest.1)
  }

  /** One turn of the loop. */
  lemma BatchStep(step: (string, map<string, Tags>) -> ((string, string), map<string, Tags>),
                  paths: seq<string>, files: map<string, Tags>)
    requires paths != []
    ensures var rest := Batch(step, paths[1..], step(paths[0], files).1);
            Batch(step, paths, files) == ([step(paths[0], files).0] + rest.0, rest.1)
  {
  }

  /** Tagging a list in two parts is tagging the first part, then the second
      from where the first left the files. */
  lemma {:induction false} BatchAppend(step: (string, map<string, Tags>) -> ((string, string), map<string, Tags>),
                                       a: seq<string>, b: seq<string>, files: map<string, Tags>)
    ensures var first := Batch(step, a, files);
            var second := Batch(step, b, first.1);
            Batch(step, a + b, files) == (first.0 + second.0, second.1)
  {
    if a == [] {
      assert a + b == b;
      assert Batch(step, a, files) == ([], files);
      assert [] + Batch(step, b, files).0 == Batch(step, b, files).0;
    } else {
      assert (a + b)[0] == a[0];
      assert (a + b)[1..] == a[1..] + b;
      var x := step(a[0], files).0;
      var files' := step(a[0], files).1;
      BatchStep(step, a + b, files);
      BatchStep(step, a, files);
      BatchAppend(step, a[1..], b, files');
      var tail := Batch(step, a[1..], files');
      var second := Batch(step, b, tail.1);
      assert Batch(step, a, files) == ([x] + tail.0, tail.1);
      assert Batch(step, a[1..] + b, files') == (tail.0 + second.0, second.1);
      assert Batch(step, a + b, files) == ([x] + (tail.0 + second.0), second.1);
      assert [x] + (tail.0 + second.0) == ([x] + tail.0) + second.0;
    }
  }

  /** A file that cannot be tagged keeps its name and query as its outcome,
      changes nothing, and the rest of the list is tagged as if it had not
      been there. */
  lemma FailureDoesNotStop(sv: Services, token: string, prefix: Option<string>, geniusUrl: Option<string>,
                           paths: seq<string>, files: map<string, Tags>)
    requires paths != []
    requires Embed(sv, token, QueryFor(paths[0], prefix), paths[0], geniusUrl, files).0.Failure?
    ensures var step := TagStep(sv, token, prefix, geniusUrl);
            var rest := Batch(step, paths[1..], files);
            Batch(step, paths, files) == ([(QueryFor(paths[0], prefix), paths[0])] + rest.0, rest.1)
  {
    var query := QueryFor(paths[0], prefix);
    TagFallback(sv, token, query, paths[0], geniusUrl, files);
  }

  /** Partway through the loop: the outcomes so far, followed by what is left
      to do from the present files, make up the whole batch. */
  ghost predicate Resumes(step: (string, map<string, Tags>) -> ((string, string), map<string, Tags>),
                          paths: seq<string>, i: nat, outcomes: seq<(string, string)>,
                          files: map<string, Tags>, start: map<string, Tags>)
    requires i <= |paths|
  {
    var rest := Batch(step, paths[i..], files);
    (outcomes + rest.0, rest.1) == Batch(step, paths, start)
  }

  lemma ResumesAtStart(step: (string, map<string, Tags>) -> ((string, string), map<string, Tags>),
                       paths: seq<string>, files: map<string, Tags>)
    ensures Resumes(step, paths, 0, [], files, files)
  {
    assert paths[0..] == paths;
    assert [] + Batch(step, paths, files).0 == Batch(step, paths, files).0;
  }

  /** One file tagged moves the loop on by one. */
  lemma ResumesAfterStep(step: (string, map<string, Tags>) -> ((string, string), map<string, Tags>),
                         paths: seq<string>, i: nat, outcomes: seq<(string, string)>,
                         files: map<string, Tags>, start: map<string, Tags>,
                         outcome: (string, string), files': map<string, Tags>)
    requires i < |paths|
    requires Resumes(step, paths, i, outcomes, files, start)
    requires step(paths[i], files) == (outcome, files')
    ensures Resumes(step, paths, i + 1, outcomes + [outcome], files', start)
  {
    assert paths[i..][1..] == paths[i + 1..];
    BatchStep(step, paths[i..], files);
    var rest := Batch(step, paths[i + 1..], files');
    assert (outcomes + [outcome]) + rest.0 == outcomes + ([outcome] + rest.0);
  }

  lemma ResumesAtEnd(step: (string, map<string, Tags>) -> ((string, string), map<string, Tags>),
                     paths: seq<string>, outcomes: seq<(string, string)>,
                     files: map<string, Tags>, start: map<string, Tags>)
    requires Resumes(step, paths, |paths|, outcomes, files, start)
    ensures (outcomes, files) == Batch(step, paths, start)
  {
    assert paths[|paths|..] == [];
    assert outcomes + [] == outcomes;
  }

  /** The second loop of `cli`: each file tagged once, in order, whatever
      happened to the ones before. */
  method TagFiles(tagger: Tagger, sv: Services, disk: Disk, paths: seq<string>, prefix: Option<string>, geniusUrl: Option<string>)
    returns (outcomes: seq<(string, string)>)
    modifies disk
    ensures (outcomes, disk.files) == Batch(TagStep(sv, tagger.token, prefix, geniusUrl), paths, old(disk.files))
  {
    ghost var step := TagStep(sv, tagger.token, prefix, geniusUrl);
    outcomes := [];
    ResumesAtStart(step, paths, disk.files);
    for i := 0 to |paths|
      invariant Resumes(step, paths, i, outcomes, disk.files, old(disk.files))
    {
      ghost var before := disk.files;
      var query := QueryFor(paths[i], prefix);
      var title, path := tagger.Tag(sv, disk, query, paths[i], geniusUrl);
      ResumesAfterStep(step, paths, i, outcomes, before, old(disk.files), (title, path), disk.files);
      outcomes := outcomes + [(title, path)];
    }
    ResumesAtEnd(step, paths, outcomes, disk.files, old(disk.files));
  }
}
