/**
 * The rotating video recorder (recorder/recorder.go): the output path is
 * split into a base and an extension, and every format change of the
 * incoming frames closes the current file and opens `base-N.ext` with the
 * next N. Opening a file and writing a frame are foreign calls whose
 * success is a parameter.
 */
module Recorder {
  import opened Wrappers
  import opened Text
  import opened Frames

  // ---------------------------------------------------------------------
  // Path handling

  /** Some '/' lies strictly between positions j and i. */
  ghost predicate SlashBetween(path: string, j: nat, i: nat) {
    exists m :: j < m < i && m < |path| && path[m] == '/'
  }

  /**
   * Where the extension of path[..i] starts: the last '.' after the last
   * '/', if there is one (filepath.Ext with '/' as the separator).
   */
  function ExtStart(path: string, i: nat): (k: Option<nat>)
    requires i <= |path|
    ensures k.Some? ==> k.value < i && path[k.value] == '.'
    ensures k.Some? ==> forall j :: k.value < j < i ==> path[j] != '.' && path[j] != '/'
    ensures k.None? ==> forall j :: 0 <= j < i && path[j] == '.' ==> SlashBetween(path, j, i)
  {
    if i == 0 then None
    else if path[i - 1] == '/' then None
    else if path[i - 1] == '.' then Some(i - 1)
    else ExtStart(path, i - 1)
  }

  /** filepath.Ext: the suffix from the final element's last '.', or "" when that element has no '.'. */
  function Ext(path: string): (e: string)
    ensures |e| <= |path| && path[|path| - |e|..] == e
    ensures e != [] ==> e[0] == '.' && forall j :: 1 <= j < |e| ==> e[j] != '.' && e[j] != '/'
    ensures e == [] ==> forall j :: 0 <= j < |path| && path[j] == '.' ==> SlashBetween(path, j, |path|)
  {
    match ExtStart(path, |path|)
    case Some(k) => path[k..]
    case None => ""
  }

  /** strings.TrimSuffix: `s` without `t` when `t` ends it, `s` otherwise. */
  function TrimSuffix(s: string, t: string): (r: string)
    ensures |t| <= |s| && s[|s| - |t|..] == t ==> r + t == s
    ensures !(|t| <= |s| && s[|s| - |t|..] == t) ==> r == s
  {
    if |t| <= |s| && s[|s| - |t|..] == t then s[..|s| - |t|] else s
  }

  const DefaultExt: string := ".mp4"
  const DefaultFourCC: string := "mp4v"
  const DefaultFPS: real := 30.0

  /** The base name and extension NewRecorder derives from the output path. */
  function SplitPath(path: string): (string, string) {
    var e := Ext(path);
    (TrimSuffix(path, e), if e == "" then DefaultExt else e)
  }

  /**
   * The base followed by the path's own extension is the path; the stored
   * extension is that extension, or ".mp4" when the final element has none.
   */
  lemma SplitPathParts(path: string)
    ensures SplitPath(path).0 + Ext(path) == path
    ensures Ext(path) != "" ==> SplitPath(path).1 == Ext(path)
    ensures Ext(path) == "" ==> SplitPath(path) == (path, DefaultExt)
    ensures SplitPath(path).1 != [] && SplitPath(path).1[0] == '.'
  {
    var e := Ext(path);
    assert |e| <= |path| && path[|path| - |e|..] == e;
    assert TrimSuffix(path, e) + e == path;
    assert path[..|path|] == path;
  }

  /** A file name with an extension: "out/clip.avi" splits into "out/clip" and ".avi". */
  lemma SplitPathExtension()
    ensures SplitPath("out/clip.avi") == ("out/clip", ".avi")
  {
    var p := "out/clip.avi";
    assert ExtStart(p, 9) == Some(8);
    assert ExtStart(p, 12) == ExtStart(p, 11) == ExtStart(p, 10) == ExtStart(p, 9);
    assert Ext(p) == p[8..] == ".avi";
    assert p[..8] == "out/clip";
  }

  /** A dot only in a directory name is no extension: "runs.v2/capture" records as ".mp4". */
  lemma SplitPathDottedDirectory()
    ensures SplitPath("runs.v2/capture") == ("runs.v2/capture", DefaultExt)
  {
    var p := "runs.v2/capture";
    assert ExtStart(p, 8) == None;
    assert ExtStart(p, 15) == ExtStart(p, 14) == ExtStart(p, 13) == ExtStart(p, 12);
    assert ExtStart(p, 12) == ExtStart(p, 11) == ExtStart(p, 10) == ExtStart(p, 9) == ExtStart(p, 8);
    assert Ext(p) == "";
    assert p[..15] == p;
  }

  /** The application's default output "gocvkit_capture.mp4" splits into "gocvkit_capture" and ".mp4". */
  lemma SplitPathDefaultOutput()
    ensures SplitPath("gocvkit_capture.mp4") == ("gocvkit_capture", ".mp4")
  {
    var p := "gocvkit_capture.mp4";
    assert ExtStart(p, 16) == Some(15);
    assert ExtStart(p, 19) == ExtStart(p, 18) == ExtStart(p, 17) == ExtStart(p, 16);
    assert Ext(p) == p[15..] == ".mp4";
    assert p[..15] == "gocvkit_capture";
  }

  /** The name of the n-th file: `base-N.ext`. */
  function FileName(base: string, n: nat, ext: string): string {
    base + "-" + NatToDecimal(n) + ext
  }

  /** Different counters never produce the same file name. */
  lemma FileNameInjective(base: string, ext: string, m: nat, n: nat)
    ensures FileName(base, m, ext) == FileName(base, n, ext) ==> m == n
  {
    if FileName(base, m, ext) == FileName(base, n, ext) {
      var dm, dn := NatToDecimal(m), NatToDecimal(n);
      var p := |base| + 1;
      assert |dm| == |dn|;
      assert FileName(base, m, ext)[p..p + |dm|] == dm;
      assert FileName(base, n, ext)[p..p + |dn|] == dn;
      DecimalInjective(m, n);
    }
  }

  // ---------------------------------------------------------------------
  // The recorder as a state machine

  /** One output file: the counter value it was opened with and the writer parameters. */
  datatype VideoFile = VideoFile(index: nat, name: string, fourcc: string, fps: real,
                                 width: int, height: int, isColor: bool, frames: seq<Frame>)

  datatype RecordError = OpenFailed(name: string) | WriteFailed

  /** The recorder's fields; `finished` lists the files closed so far, oldest first. */
  datatype RecorderState = RecorderState(writer: Option<VideoFile>, fps: real, fourcc: string,
                                         base: string, ext: string, counter: nat,
                                         width: int, height: int, channels: int,
                                         finished: seq<VideoFile>)

  /** NewRecorder(path): nothing open, counter 0, 30 fps, "mp4v". */
  function Initial(path: string): (s: RecorderState) {
    RecorderState(None, DefaultFPS, DefaultFourCC, SplitPath(path).0, SplitPath(path).1, 0, 0, 0, 0, [])
  }

  function SetFPSSpec(s: RecorderState, fps: real): RecorderState {
    if fps > 0.0 then s.(fps := fps) else s
  }

  /** Close: the open file, if any, is finalised. */
  function CloseSpec(s: RecorderState): RecorderState {
    if s.writer.Some? then s.(writer := None, finished := s.finished + [s.writer.value]) else s
  }

  /** The frame's (cols, rows, channels) differs from the tracked signature. */
  predicate FormatChanged(s: RecorderState, frame: Frame) {
    frame.cols != s.width || frame.rows != s.height || frame.Channels() != s.channels
  }

  /** writer.Write on the open file. */
  function PutFrame(s: RecorderState, frame: Frame, writeOk: bool): (RecorderState, Outcome<RecordError>)
    requires s.writer.Some?
  {
    if writeOk then (s.(writer := Some(s.writer.value.(frames := s.writer.value.frames + [frame]))), Pass)
    else (s, Fail(WriteFailed))
  }

  /** The part of Write that opens `base-N.ext` for a frame when nothing is open. */
  function OpenSpec(s: RecorderState, frame: Frame, openOk: bool, writeOk: bool): (RecorderState, Outcome<RecordError>)
    requires s.writer.None?
  {
    var ch := frame.Channels();
    var s2 := s.(width := frame.cols, height := frame.rows, channels := ch, counter := s.counter + 1);
    var file := VideoFile(s.counter, FileName(s.base, s.counter, s.ext), s.fourcc, s.fps,
                          frame.cols, frame.rows, ch != 1, []);
    if !openOk then (s2, Fail(OpenFailed(file.name)))
    else PutFrame(s2.(writer := Some(file)), frame, writeOk)
  }

  /** Write(frame), given whether opening a file and writing the frame succeed. */
  function WriteSpec(s: RecorderState, frame: Frame, openOk: bool, writeOk: bool): (RecorderState, Outcome<RecordError>) {
    if frame.Empty() then (s, Pass)
    else
      var s1 := if s.writer.Some? && FormatChanged(s, frame) then CloseSpec(s) else s;
      if s1.writer.Some? then PutFrame(s1, frame, writeOk)
      else OpenSpec(s1, frame, openOk, writeOk)
  }

  /** Every file ever opened, in order. */
  function Files(s: RecorderState): seq<VideoFile> {
    s.finished + (if s.writer.Some? then [s.writer.value] else [])
  }

  /**
   * The recorder's invariant: file k was opened with a counter below the
   * current one, counters strictly increase from file to file, each file is
   * named after its counter, the open file has the tracked signature and
   * was the last one opened.
   */
  ghost predicate Inv(s: RecorderState) {
    var fs := Files(s);
    (forall k :: 0 <= k < |fs| ==> fs[k].index < s.counter && fs[k].name == FileName(s.base, fs[k].index, s.ext)) &&
    (forall k, l :: 0 <= k < l < |fs| ==> fs[k].index < fs[l].index) &&
    (s.writer.Some? ==>
       s.writer.value.index == s.counter - 1 &&
       s.writer.value.width == s.width && s.writer.value.height == s.height &&
       s.writer.value.isColor == (s.channels != 1))
  }

  lemma InitialInv(path: string)
    ensures Inv(Initial(path)) && Files(Initial(path)) == []
  {
  }

  /** Closing keeps the invariant and the list of opened files, and leaves nothing open. */
  lemma CloseSpecInv(s: RecorderState)
    requires Inv(s)
    ensures Inv(CloseSpec(s))
    ensures Files(CloseSpec(s)) == Files(s) && CloseSpec(s).writer.None?
    ensures CloseSpec(CloseSpec(s)) == CloseSpec(s)
    ensures CloseSpec(s).counter == s.counter && CloseSpec(s).width == s.width &&
            CloseSpec(s).height == s.height && CloseSpec(s).channels == s.channels
  {
  }

  /** Appending a frame to the open file keeps the invariant and the file names. */
  lemma PutFrameInv(s: RecorderState, frame: Frame, writeOk: bool)
    requires Inv(s) && s.writer.Some?
    ensures Inv(PutFrame(s, frame, writeOk).0)
    ensures |Files(PutFrame(s, frame, writeOk).0)| == |Files(s)|
    ensures forall k :: 0 <= k < |Files(s)| ==> Files(PutFrame(s, frame, writeOk).0)[k].name == Files(s)[k].name
  {
    if writeOk {
      var w := s.writer.value;
      var t := PutFrame(s, frame, writeOk).0;
      assert Files(t) == s.finished + [w.(frames := w.frames + [frame])];
      assert Files(s) == s.finished + [w];
      assert forall k :: 0 <= k < |Files(t)| ==>
               Files(t)[k].index == Files(s)[k].index && Files(t)[k].name == Files(s)[k].name;
    }
  }

  /** Opening the next file keeps the invariant and adds exactly that file at the end. */
  lemma OpenSpecInv(s: RecorderState, frame: Frame, openOk: bool, writeOk: bool)
    requires Inv(s) && s.writer.None?
    ensures Inv(OpenSpec(s, frame, openOk, writeOk).0)
    ensures Files(OpenSpec(s, frame, openOk, writeOk).0)[..|Files(s)|] == Files(s) || Files(OpenSpec(s, frame, openOk, writeOk).0) == Files(s)
    ensures |Files(s)| <= |Files(OpenSpec(s, frame, openOk, writeOk).0)|
  {
    var ch := frame.Channels();
    var s2 := s.(width := frame.cols, height := frame.rows, channels := ch, counter := s.counter + 1);
    var file := VideoFile(s.counter, FileName(s.base, s.counter, s.ext), s.fourcc, s.fps,
                          frame.cols, frame.rows, ch != 1, []);
    assert Files(s2) == Files(s);
    if openOk {
      var s3 := s2.(writer := Some(file));
      assert Files(s3) == Files(s) + [file];
      assert Inv(s3);
      PutFrameInv(s3, frame, writeOk);
      assert Files(PutFrame(s3, frame, writeOk).0)[..|Files(s)|] == Files(s);
    }
  }

  /** Writing keeps the invariant; files already opened keep their place and name. */
  lemma WriteSpecInv(s: RecorderState, frame: Frame, openOk: bool, writeOk: bool)
    requires Inv(s)
    ensures Inv(WriteSpec(s, frame, openOk, writeOk).0)
    ensures |Files(s)| <= |Files(WriteSpec(s, frame, openOk, writeOk).0)|
    ensures forall k :: 0 <= k < |Files(s)| ==>
              Files(WriteSpec(s, frame, openOk, writeOk).0)[k].name == Files(s)[k].name
  {
    if !frame.Empty() {
      var s1 := if s.writer.Some? && FormatChanged(s, frame) then CloseSpec(s) else s;
      CloseSpecInv(s);
      assert Inv(s1) && Files(s1) == Files(s);
      if s1.writer.Some? {
        PutFrameInv(s1, frame, writeOk);
      } else {
        OpenSpecInv(s1, frame, openOk, writeOk);
        var t := OpenSpec(s1, frame, openOk, writeOk).0;
        assert forall k :: 0 <= k < |Files(s)| ==> Files(t)[k] == Files(s)[k] by {
          if Files(t) != Files(s) {
            assert forall k :: 0 <= k < |Files(s)| ==> Files(t)[k] == Files(t)[..|Files(s)|][k];
          }
        }
      }
    }
  }

  /** Under the invariant no two files share a name. */
  lemma FileNamesDistinct(s: RecorderState, k: nat, l: nat)
    requires Inv(s)
    requires k < l < |Files(s)|
    ensures Files(s)[k].name != Files(s)[l].name
  {
    FileNameInjective(s.base, s.ext, Files(s)[k].index, Files(s)[l].index);
  }

  /** An empty frame succeeds and changes nothing. */
  lemma WriteEmptyFrame(s: RecorderState, frame: Frame, openOk: bool, writeOk: bool)
    requires frame.Empty()
    ensures WriteSpec(s, frame, openOk, writeOk) == (s, Pass)
  {
  }

  /**
   * A frame that needs a new file (nothing open, or a format change of the
   * open one): a changed format first finalises the open file; then the
   * signature is taken from the frame, the counter advances by exactly one,
   * and the file `base-N.ext`, N the old counter, is opened monochrome
   * exactly for one channel. A failed open leaves nothing open.
   */
  lemma WriteOpensFile(s: RecorderState, frame: Frame, openOk: bool, writeOk: bool)
    requires !frame.Empty()
    requires s.writer.None? || FormatChanged(s, frame)
    ensures var (t, r) := WriteSpec(s, frame, openOk, writeOk);
            t.counter == s.counter + 1 &&
            t.width == frame.cols && t.height == frame.rows && t.channels == frame.Channels() &&
            t.finished == CloseSpec(s).finished &&
            t.base == s.base && t.ext == s.ext && t.fps == s.fps && t.fourcc == s.fourcc &&
            (!openOk ==> t.writer.None? && r == Fail(OpenFailed(FileName(s.base, s.counter, s.ext)))) &&
            (openOk ==> t.writer.Some? &&
                        t.writer.value.name == FileName(s.base, s.counter, s.ext) &&
                        t.writer.value.index == s.counter &&
                        t.writer.value.isColor == (frame.Channels() != 1) &&
                        t.writer.value.fps == s.fps && t.writer.value.fourcc == s.fourcc &&
                        t.writer.value.frames == (if writeOk then [frame] else []) &&
                        r == (if writeOk then Pass else Fail(WriteFailed)))
  {
  }

  /** A frame in the open file's format is appended to it; no file is opened or closed. */
  lemma WriteSameFormat(s: RecorderState, frame: Frame, openOk: bool, writeOk: bool)
    requires !frame.Empty() && s.writer.Some? && !FormatChanged(s, frame)
    ensures var (t, r) := WriteSpec(s, frame, openOk, writeOk);
            t.counter == s.counter && t.finished == s.finished && t.writer.Some? &&
            t.writer.value.name == s.writer.value.name &&
            t.writer.value.frames == s.writer.value.frames + (if writeOk then [frame] else []) &&
            r == (if writeOk then Pass else Fail(WriteFailed))
  {
  }

  /** The state after writing each frame in turn, every open and write succeeding. */
  function WriteAll(s: RecorderState, frames: seq<Frame>): RecorderState
    decreases |frames|
  {
    if frames == [] then s
    else WriteAll(WriteSpec(s, frames[0], true, true).0, frames[1..])
  }

  const Big: Frame := Frame(480, 640, CV_8UC3, [])
  const Small: Frame := Frame(240, 320, CV_8UC3, [])

  /** File n of the example, as opened (no frames yet). */
  function ExampleFile(n: nat, f: Frame): VideoFile {
    VideoFile(n, FileName("out", n, ".mp4"), DefaultFourCC, DefaultFPS, f.cols, f.rows, true, [])
  }

  function ExampleState(w: VideoFile, counter: nat, f: Frame, finished: seq<VideoFile>): RecorderState {
    RecorderState(Some(w), DefaultFPS, DefaultFourCC, "out", ".mp4", counter, f.cols, f.rows, 3, finished)
  }

  lemma ExampleInitial()
    ensures Initial("out.mp4") == RecorderState(None, DefaultFPS, DefaultFourCC, "out", ".mp4", 0, 0, 0, 0, [])
  {
    assert ExtStart("out.mp4", 4) == Some(3);
    assert ExtStart("out.mp4", 7) == ExtStart("out.mp4", 6) == ExtStart("out.mp4", 5) == ExtStart("out.mp4", 4);
    assert "out.mp4"[3..] == ".mp4" && "out.mp4"[..3] == "out";
  }

  lemma ExampleOpen(s: RecorderState, f: Frame, n: nat)
    requires s.writer.None? && s.counter == n && s.base == "out" && s.ext == ".mp4"
    requires s.fps == DefaultFPS && s.fourcc == DefaultFourCC
    requires f == Big || f == Small
    ensures OpenSpec(s, f, true, true).0 == ExampleState(ExampleFile(n, f).(frames := [f]), n + 1, f, s.finished)
  {
    assert [] + [f] == [f];
  }

  /** The file the example opens as its n-th, holding `frames`. */
  function ExampleFileWith(n: nat, f: Frame, frames: seq<Frame>): VideoFile {
    ExampleFile(n, f).(frames := frames)
  }

  lemma RotationFirstFrame()
    ensures WriteSpec(Initial("out.mp4"), Big, true, true).0 == ExampleState(ExampleFileWith(0, Big, [Big]), 1, Big, [])
  {
    ExampleInitial();
    ExampleOpen(Initial("out.mp4"), Big, 0);
  }

  lemma RotationSameFormat()
    ensures var s := ExampleState(ExampleFileWith(0, Big, [Big]), 1, Big, []);
            WriteSpec(s, Big, true, true).0 == ExampleState(ExampleFileWith(0, Big, [Big, Big]), 1, Big, [])
  {
    assert [Big] + [Big] == [Big, Big];
  }

  lemma RotationSmaller()
    ensures var s := ExampleState(ExampleFileWith(0, Big, [Big, Big]), 1, Big, []);
            WriteSpec(s, Small, true, true).0 ==
              ExampleState(ExampleFileWith(1, Small, [Small]), 2, Small, [ExampleFileWith(0, Big, [Big, Big])])
  {
    var s := ExampleState(ExampleFileWith(0, Big, [Big, Big]), 1, Big, []);
    assert FormatChanged(s, Small);
    assert [] + [ExampleFileWith(0, Big, [Big, Big])] == [ExampleFileWith(0, Big, [Big, Big])];
    ExampleOpen(CloseSpec(s), Small, 1);
  }

  lemma RotationBack()
    ensures var s := ExampleState(ExampleFileWith(1, Small, [Small]), 2, Small, [ExampleFileWith(0, Big, [Big, Big])]);
            WriteSpec(s, Big, true, true).0 ==
              ExampleState(ExampleFileWith(2, Big, [Big]), 3, Big,
                           [ExampleFileWith(0, Big, [Big, Big]), ExampleFileWith(1, Small, [Small])])
  {
    var s := ExampleState(ExampleFileWith(1, Small, [Small]), 2, Small, [ExampleFileWith(0, Big, [Big, Big])]);
    assert FormatChanged(s, Big);
    ExampleOpen(CloseSpec(s), Big, 2);
  }

  /**
   * Signatures 640x480x3, 640x480x3, 320x240x3, 640x480x3 open files 0, 1
   * and 2: the second frame joins file 0, each change of format rotates.
   */
  lemma RotationExample()
    ensures var t := WriteAll(Initial("out.mp4"), [Big, Big, Small, Big]);
            t.counter == 3 &&
            |t.finished| == 2 && t.writer.Some? &&
            t.finished[0].name == FileName("out", 0, ".mp4") && t.finished[0].frames == [Big, Big] &&
            t.finished[1].name == FileName("out", 1, ".mp4") && t.finished[1].frames == [Small] &&
            t.writer.value.name == FileName("out", 2, ".mp4") && t.writer.value.frames == [Big]
  {
    var s0 := Initial("out.mp4");
    var s1 := ExampleState(ExampleFileWith(0, Big, [Big]), 1, Big, []);
    var s2 := ExampleState(ExampleFileWith(0, Big, [Big, Big]), 1, Big, []);
    var s3 := ExampleState(ExampleFileWith(1, Small, [Small]), 2, Small, [ExampleFileWith(0, Big, [Big, Big])]);
    var s4 := ExampleState(ExampleFileWith(2, Big, [Big]), 3, Big,
                           [ExampleFileWith(0, Big, [Big, Big]), ExampleFileWith(1, Small, [Small])]);
    RotationFirstFrame();
    RotationSameFormat();
    RotationSmaller();
    RotationBack();
    assert [Big, Big, Small, Big][1..] == [Big, Small, Big];
    assert [Big, Small, Big][1..] == [Small, Big];
    assert [Small, Big][1..] == [Big];
    assert WriteAll(s3, [Big]) == WriteAll(s4, []);
    assert WriteAll(s2, [Small, Big]) == WriteAll(s3, [Big]);
    assert WriteAll(s1, [Big, Small, Big]) == WriteAll(s2, [Small, Big]);
    assert WriteAll(s0, [Big, Big, Small, Big]) == WriteAll(s1, [Big, Small, Big]);
  }

  /** The recorder object; its fields mirror RecorderState. */
  class Recorder {
    var writer: Option<VideoFile>
    var fps: real
    var fourcc: string
    var baseName: string
    var ext: string
    var counter: nat
    var width: int
    var height: int
    var channels: int
    /** Files finalised so far, oldest first (the recordings on disk). */
    var finished: seq<VideoFile>

    function State(): RecorderState
      reads this
    {
      RecorderState(writer, fps, fourcc, baseName, ext, counter, width, height, channels, finished)
    }

    /** NewRecorder. */
    constructor (path: string)
      ensures State() == Initial(path) && Inv(State())
    {
      var e := Ext(path);
      var base := TrimSuffix(path, e);
      if e == "" {
        e := DefaultExt;
      }
      writer := None;
      fps := DefaultFPS;
      fourcc := DefaultFourCC;
      baseName := base;
      ext := e;
      counter := 0;
      width, height, channels := 0, 0, 0;
      finished := [];
    }

    /** Only a positive rate replaces the current one. */
    method SetFPS(rate: real)
      modifies this
      ensures State() == SetFPSSpec(old(State()), rate)
    {
      if rate > 0.0 {
        fps := rate;
      }
    }

    method Close()
      modifies this
      ensures State() == CloseSpec(old(State()))
    {
      if writer.Some? {
        finished := finished + [writer.value];
        writer := None;
      }
    }

    /** Write: rotates on a format change, opens `base-N.ext` when nothing is open, then writes. */
    method Write(frame: Frame, openOk: bool, writeOk: bool) returns (r: Outcome<RecordError>)
      modifies this
      ensures (State(), r) == WriteSpec(old(State()), frame, openOk, writeOk)
    {
      if frame.Empty() {
        return Pass;
      }
      var currentCols, currentRows, currentCh := frame.cols, frame.rows, frame.Channels();
      if writer.Some? {
        if currentCols != width || currentRows != height || currentCh != channels {
          Close();
        }
      }
      if writer.None? {
        width, height, channels := currentCols, currentRows, currentCh;
        var isColor := true;
        if channels == 1 {
          isColor := false;
        }
        var filename := FileName(baseName, counter, ext);
        var index := counter;
        counter := counter + 1;
        if !openOk {
          return Fail(OpenFailed(filename));
        }
        writer := Some(VideoFile(index, filename, fourcc, fps, width, height, isColor, []));
      }
      if !writeOk {
        return Fail(WriteFailed);
      }
      writer := Some(writer.value.(frames := writer.value.frames + [frame]));
      return Pass;
    }
  }
}
