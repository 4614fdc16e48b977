/** The C++ `bounce::NpyWriter`: a buffer of frames that `close` stacks
    into one `(n, *frame_shape)` array and saves to the path given to
    `open`. The files saved are kept as a log of (path, array) pairs in
    place of the file system. */
module NpyWriterModel {
  import opened Common

  /** One `cnpy::npy_save(path, ...)` the writer performed. */
  datatype SavedFile = SavedFile(path: string, array: NpyArray)

  /** The bytes `close` copies: the first `size` bytes of every frame, in
      write order. */
  function Stacked(frames: seq<NpyArray>, size: nat): seq<Byte>
    requires forall k :: 0 <= k < |frames| ==> |frames[k].data| >= size
  {
    if |frames| == 0 then []
    else Stacked(frames[..|frames| - 1], size) + frames[|frames| - 1].data[..size]
  }

  lemma {:induction false} StackedLength(frames: seq<NpyArray>, size: nat)
    requires forall k :: 0 <= k < |frames| ==> |frames[k].data| >= size
    ensures |Stacked(frames, size)| == |frames| * size
  {
    if |frames| > 0 {
      StackedLength(frames[..|frames| - 1], size);
      assert |frames| * size == (|frames| - 1) * size + size;
    }
  }

  /** Where block k of blocks of `size` bytes starts. */
  function Offset(k: nat, size: nat): nat
  {
    k * size
  }

  /** Frame k occupies bytes [k * size, (k + 1) * size) of the stack. */
  lemma {:induction false} StackedBlock(frames: seq<NpyArray>, size: nat, k: int)
    requires forall k :: 0 <= k < |frames| ==> |frames[k].data| >= size
    requires 0 <= k < |frames|
    ensures Offset(k, size) + size <= |Stacked(frames, size)|
    ensures Stacked(frames, size)[Offset(k, size) .. Offset(k, size) + size] ==
      frames[k].data[..size]
  {
    var n := |frames| - 1;
    var init := frames[..n];
    StackedLength(init, size);
    assert Stacked(frames, size) == Stacked(init, size) + frames[n].data[..size];
    if k < n {
      StackedBlock(init, size, k);
      assert init[k] == frames[k];
    } else {
      assert Offset(k, size) == |Stacked(init, size)|;
    }
  }

  /** The array `close` saves for a non-empty buffer: shape
      [n] ++ shape of the first frame, and frame k's bytes (as many as the
      first frame has) at block k, in write order. */
  function StackFrames(frames: seq<NpyArray>): (a: NpyArray)
    requires |frames| > 0
    requires forall k :: 0 <= k < |frames| ==> |frames[k].data| >= |frames[0].data|
    ensures a.shape == [|frames| as nat] + frames[0].shape
    ensures |a.data| == |frames| * |frames[0].data|
    ensures forall k :: 0 <= k < |frames| ==>
      Offset(k, |frames[0].data|) + |frames[0].data| <= |a.data| &&
      a.data[Offset(k, |frames[0].data|) .. Offset(k, |frames[0].data|) + |frames[0].data|] ==
        frames[k].data[..|frames[0].data|]
  {
    var size := |frames[0].data|;
    StackedLength(frames, size);
    forall k | 0 <= k < |frames|
      ensures Offset(k, size) + size <= |Stacked(frames, size)| &&
        Stacked(frames, size)[Offset(k, size) .. Offset(k, size) + size] == frames[k].data[..size]
    {
      StackedBlock(frames, size, k);
    }
    NpyArray([|frames| as nat] + frames[0].shape, Stacked(frames, size))
  }

  lemma MulLe(a: int, b: int, c: int)
    requires a <= b && c >= 0
    ensures a * c <= b * c
  {
  }

  /** Every frame holds at least the bytes of the first: `close` copies
      `num_bytes()` of the first frame out of each. */
  predicate FramesCopyable(frames: seq<NpyArray>)
  {
    forall k :: 0 <= k < |frames| ==> |frames[k].data| >= |frames[0].data|
  }

  class NpyWriter {
    var frames: seq<NpyArray>
    var path: string
    var fps: int
    var height: int
    var width: int
    /** The files saved so far (the effect of `cnpy::npy_save`). */
    var saved: seq<SavedFile>

    /** `NpyWriter()`: 25 fps, resolution (0, 0), nothing buffered. */
    constructor ()
      ensures frames == [] && path == "" && fps == 25 && height == 0 && width == 0
      ensures saved == []
    {
      frames := [];
      path := "";
      fps := 25;
      height := 0;
      width := 0;
      saved := [];
    }

    method SetFps(newFps: int)
      modifies this
      ensures GetFps() == newFps
      ensures frames == old(frames) && path == old(path) && saved == old(saved)
      ensures height == old(height) && width == old(width)
    {
      fps := newFps;
    }

    function GetFps(): int
      reads this
    {
      fps
    }

    /** `set_resolution(height, width)`; `get_resolution` then gives the
        pair back in the same order. */
    method SetResolution(newHeight: int, newWidth: int)
      modifies this
      ensures GetResolution() == (newHeight, newWidth)
      ensures frames == old(frames) && path == old(path) && saved == old(saved)
      ensures fps == old(fps)
    {
      height := newHeight;
      width := newWidth;
    }

    function GetResolution(): (int, int)
      reads this
    {
      (height, width)
    }

    /** `open`: drop the buffered frames and remember the path. */
    method Open(newPath: string) returns (ok: bool)
      modifies this
      ensures ok
      ensures frames == [] && path == newPath
      ensures saved == old(saved) && fps == old(fps)
      ensures height == old(height) && width == old(width)
    {
      frames := [];
      path := newPath;
      return true;
    }

    /** `write`: append one frame to the end of the buffer. */
    method Write(frame: NpyArray) returns (ok: bool)
      modifies this
      ensures ok
      ensures frames == old(frames) + [frame]
      ensures path == old(path) && saved == old(saved) && fps == old(fps)
      ensures height == old(height) && width == old(width)
    {
      frames := frames + [frame];
      return true;
    }

    /** `operator<<`: the same as `write`. */
    method Push(frame: NpyArray)
      modifies this
      ensures frames == old(frames) + [frame]
      ensures path == old(path) && saved == old(saved) && fps == old(fps)
      ensures height == old(height) && width == old(width)
    {
      var _ := Write(frame);
    }

    /** `close`: with frames buffered, save them stacked into one array to
        the path, then empty the buffer and the path. With none buffered it
        does nothing at all, and keeps the path. */
    method Close() returns (ok: bool)
      requires FramesCopyable(frames)
      modifies this
      ensures ok
      ensures old(frames) == [] ==>
        frames == [] && path == old(path) && saved == old(saved)
      ensures old(frames) != [] ==>
        frames == [] && path == "" &&
        saved == old(saved) + [SavedFile(old(path), StackFrames(old(frames)))]
      ensures fps == old(fps) && height == old(height) && width == old(width)
    {
      if |frames| == 0 {
        return true;
      }
      var data := CopyFrames(frames);
      saved := saved + [SavedFile(path, NpyArray([|frames| as nat] + frames[0].shape, data))];
      frames := [];
      path := "";
      return true;
    }

    /** `~NpyWriter`: closes the writer, so pending frames are saved. */
    method Dispose()
      requires FramesCopyable(frames)
      modifies this
      ensures frames == []
      ensures old(frames) != [] ==>
        saved == old(saved) + [SavedFile(old(path), StackFrames(old(frames)))]
      ensures old(frames) == [] ==> saved == old(saved)
    {
      var _ := Close();
    }
  }

  /** The copy loop of `close`: a buffer of n * size bytes filled frame by
      frame, the write position advancing by `size` bytes each time. */
  method CopyFrames(frames: seq<NpyArray>) returns (data: seq<Byte>)
    requires |frames| > 0 && FramesCopyable(frames)
    ensures data == StackFrames(frames).data
  {
    var size := |frames[0].data|;
    var out := new Byte[|frames| * size];
    StackedLength(frames, size);
    var pos := 0;
    var k := 0;
    while k < |frames|
      invariant 0 <= k <= |frames|
      invariant pos == |Stacked(frames[..k], size)| <= out.Length
      invariant out[..pos] == Stacked(frames[..k], size)
    {
      assert pos + size <= out.Length by {
        StackedLength(frames[..k + 1], size);
        MulLe(k + 1, |frames|, size);
        assert frames[..k + 1][..k] == frames[..k];
      }
      CopyFrame(out, frames[k].data, pos, size);
      assert frames[..k + 1][..k] == frames[..k];
      assert frames[..k + 1][k] == frames[k];
      pos := pos + size;
      k := k + 1;
    }
    assert frames[..k] == frames;
    assert out[..] == out[..pos];
    data := out[..];
  }

  /** `std::copy(frame, frame + size, out + pos)`. */
  method CopyFrame(out: array<Byte>, frame: seq<Byte>, pos: nat, size: nat)
    requires size <= |frame| && pos + size <= out.Length
    modifies out
    ensures out[..pos + size] == old(out[..pos]) + frame[..size]
  {
    forall j | 0 <= j < size {
      out[pos + j] := frame[j];
    }
  }
}
