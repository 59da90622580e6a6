/** The audio tag container as gTagger uses it through mutagen: open a file
    by path, set frames by key in memory, save them back; and the rename of
    a file on disk. The binary layout of the tags is the library's. */
module Container {
  import opened Wrappers

  /** The frames gTagger writes, holding the values it passes: the text
      frames TIT2, TPE1, TALB and TPE2, the track frame TRCK (whose text is
      the track number, possibly None), the unsynchronised lyrics USLT (whose
      text may be None) and the attached picture APIC. */
  datatype Frame =
    | TextFrame(encoding: nat, text: seq<string>)
    | TrackFrame(encoding: nat, track: seq<Option<int>>)
    | LyricsFrame(encoding: nat, lang: string, desc: string, lyrics: Option<string>)
    | PictureFrame(encoding: nat, mime: string, kind: nat, desc: string, data: seq<bv8>)

  type Tags = map<string, Frame>

  /** `os.rename(src, dst)` on the map from path to tag block: the file
      moves, replacing whatever `dst` held; renaming onto itself changes
      nothing. */
  function Moved(files: map<string, Tags>, src: string, dst: string): (r: map<string, Tags>)
    requires src in files
    ensures dst in r && r[dst] == files[src]
    ensures src != dst ==> src !in r
    ensures forall p :: p in files && p != src && p != dst ==> p in r && r[p] == files[p]
    ensures forall p :: p in r ==> p == dst || p in files
  {
    if src == dst then files else (files - {src})[dst := files[src]]
  }

  /** The audio files on disk that the tag library can open, each with its
      tag block. */
  class Disk {
    var files: map<string, Tags>

    constructor (files: map<string, Tags>)
      ensures this.files == files
    {
      this.files := files;
    }

    /** `mutagen.File(path)`: null where the library raises or does not
        recognise the file. `takesFrames` is the library's verdict on the
        format it detects: whether its tags accept an ID3 frame by key. */
    method Open(path: string, takesFrames: string -> bool) returns (f: AudioFile?)
      ensures f == null <==> path !in files
      ensures f != null ==>
        fresh(f) && f.path == path && f.frames == files[path] && f.takesFrames == takesFrames(path)
    {
      if path in files {
        f := new AudioFile(path, files[path], takesFrames(path));
      } else {
        f := null;
      }
    }

    method Rename(src: string, dst: string)
      requires src in files
      modifies this
      ensures files == Moved(old(files), src, dst)
    {
      files := Moved(files, src, dst);
    }
  }

  /** An opened file: its frames in memory until `Save`, and whether its
      format takes ID3 frames (an MP3 or WAVE file does; the tags of an ASF
      or bare AAC file raise instead). */
  class AudioFile {
    const path: string
    const takesFrames: bool
    var frames: Tags

    constructor (path: string, frames: Tags, takesFrames: bool)
      ensures this.path == path && this.frames == frames && this.takesFrames == takesFrames
    {
      this.path := path;
      this.frames := frames;
      this.takesFrames := takesFrames;
    }

    /** `audio_file[key] = frame`: the frame is assigned by key, the others
        kept, or, where the format refuses it, the call raises (`ok` is
        false) and nothing changes. */
    method Set(key: string, frame: Frame) returns (ok: bool)
      modifies this
      ensures ok == takesFrames
      ensures frames == if ok then old(frames)[key := frame] else old(frames)
    {
      ok := takesFrames;
      if ok {
        frames := frames[key := frame];
      }
    }

    /** `audio_file.save()`: the file's tag block becomes the frames. */
    method Save(disk: Disk)
      modifies disk
      ensures disk.files == old(disk.files)[path := frames]
    {
      disk.files := disk.files[path := frames];
    }
  }
}
