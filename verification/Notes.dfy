/** Notes from the helper thread to a core, and their reassembly from a pipe. */
module Notes {
  import opened Wrappers
  import opened Machine
  import opened Ordering
  import opened Digests

  const NOTE_LEN := 12
  const KIND_TICK := 0
  const KIND_CONNECT := 1

  /** `err` is 0 for success, else an errno. */
  datatype Note = Tick | Connected(fd: i32, err: i32)

  // -------------------------------------------------------------------------
  // One note
  // -------------------------------------------------------------------------

  /** The bits of an `i32`, read as unsigned. */
  function Unsigned(i: i32): u32 {
    if i < 0 then i + 0x1_0000_0000 else i
  }

  function Signed(u: u32): i32 {
    if u < 0x8000_0000 then u else u - 0x1_0000_0000
  }

  function LeValue(s: seq<byte>): nat {
    if s == [] then 0 else s[0] + 256 * LeValue(s[1..])
  }

  lemma {:induction false} LeReadsBack(v: nat, n: nat)
    requires v < Pow256(n)
    ensures LeValue(LeBytes(v, n)) == v
  {
    if n != 0 {
      LeReadsBack(v / 256, n - 1);
      assert LeBytes(v, n)[1..] == LeBytes(v / 256, n - 1);
    }
  }

  lemma {:induction false} LeValueBound(s: seq<byte>)
    ensures LeValue(s) < Pow256(|s|)
  {
    if s != [] {
      LeValueBound(s[1..]);
    }
  }

  lemma Pow256Of4()
    ensures Pow256(4) == 0x1_0000_0000
  {
    assert Pow256(2) == 65536;
  }

  function Frame(fd: i32, kind: u32, err: i32): (r: seq<byte>)
    ensures |r| == NOTE_LEN
  {
    LeBytes(Unsigned(fd), 4) + LeBytes(kind, 4) + LeBytes(Unsigned(err), 4)
  }

  function Encode(note: Note): (r: seq<byte>)
    ensures |r| == NOTE_LEN
  {
    match note
    case Tick => Frame(0, KIND_TICK, 0)
    case Connected(fd, err) => Frame(fd, KIND_CONNECT, err)
  }

  function Word32(s: seq<byte>): u32
    requires |s| == 4
  {
    LeValueBound(s);
    Pow256Of4();
    LeValue(s)
  }

  /** Any kind but a connect is a tick. */
  function Decode(s: seq<byte>): Option<Note> {
    if |s| < NOTE_LEN then None
    else if Word32(s[4..8]) == KIND_CONNECT then Some(Connected(Signed(Word32(s[0..4])), Signed(Word32(s[8..12]))))
    else Some(Tick)
  }

  lemma FrameParts(fd: i32, kind: u32, err: i32)
    ensures Word32(Frame(fd, kind, err)[0..4]) == Unsigned(fd)
    ensures Word32(Frame(fd, kind, err)[4..8]) == kind
    ensures Word32(Frame(fd, kind, err)[8..12]) == Unsigned(err)
  {
    Pow256Of4();
    LeReadsBack(Unsigned(fd), 4);
    LeReadsBack(kind, 4);
    LeReadsBack(Unsigned(err), 4);
    var f := Frame(fd, kind, err);
    assert f[0..4] == LeBytes(Unsigned(fd), 4);
    assert f[4..8] == LeBytes(kind, 4);
    assert f[8..12] == LeBytes(Unsigned(err), 4);
  }

  /** Every descriptor and every error, negative ones included, survives the pipe. */
  lemma DecodeEncode(note: Note)
    ensures Decode(Encode(note)) == Some(note)
  {
    match note
    case Tick => FrameParts(0, KIND_TICK, 0);
    case Connected(fd, err) => FrameParts(fd, KIND_CONNECT, err);
  }

  // -------------------------------------------------------------------------
  // A stream of notes
  // -------------------------------------------------------------------------

  /** The notes of a stream's longest prefix of whole frames. */
  function NotesOf(stream: seq<byte>): seq<Note> {
    if |stream| < NOTE_LEN then []
    else [Decode(stream[..NOTE_LEN]).value] + NotesOf(stream[NOTE_LEN..])
  }

  /** What is left of a stream after its whole frames. */
  function Leftover(stream: seq<byte>): (r: seq<byte>)
    ensures |r| < NOTE_LEN
  {
    if |stream| < NOTE_LEN then stream else Leftover(stream[NOTE_LEN..])
  }

  lemma {:induction false} NotesSplit(stream: seq<byte>, more: seq<byte>)
    ensures NotesOf(stream + more) == NotesOf(stream) + NotesOf(Leftover(stream) + more)
    ensures Leftover(stream + more) == Leftover(Leftover(stream) + more)
    decreases |stream|
  {
    if |stream| >= NOTE_LEN {
      var all := stream + more;
      assert all[..NOTE_LEN] == stream[..NOTE_LEN];
      assert all[NOTE_LEN..] == stream[NOTE_LEN..] + more;
      NotesSplit(stream[NOTE_LEN..], more);
    }
  }

  lemma OneMoreFrame(stream: seq<byte>, frame: seq<byte>)
    requires Leftover(stream) == [] && |frame| == NOTE_LEN
    ensures NotesOf(stream + frame) == NotesOf(stream) + [Decode(frame).value]
    ensures Leftover(stream + frame) == []
  {
    NotesSplit(stream, frame);
    assert Leftover(stream) + frame == frame;
    assert frame[..NOTE_LEN] == frame && frame[NOTE_LEN..] == [];
    assert NotesOf([]) == [];
  }

  lemma WholeAndRest(stream: seq<byte>, whole: nat)
    requires whole <= |stream| < whole + NOTE_LEN
    requires Leftover(stream[..whole]) == []
    ensures NotesOf(stream) == NotesOf(stream[..whole]) && Leftover(stream) == stream[whole..]
  {
    assert stream == stream[..whole] + stream[whole..];
    NotesSplit(stream[..whole], stream[whole..]);
    assert Leftover(stream[..whole]) + stream[whole..] == stream[whole..];
  }

  class NoteReader {
    var partial: seq<byte>

    ghost predicate Valid()
      reads this
    {
      |partial| < NOTE_LEN
    }

    constructor ()
      ensures Valid() && partial == []
    {
      partial := [];
    }

    /** Emits every note the stream now completes, keeping what does not. */
    method Feed(bytes: seq<byte>) returns (notes: seq<Note>)
      requires Valid()
      modifies this
      ensures Valid()
      ensures notes == NotesOf(old(partial) + bytes) && partial == Leftover(old(partial) + bytes)
    {
      if partial != [] {
        notes := Resume(bytes);
      } else {
        assert partial + bytes == bytes;
        notes := Straight(bytes);
      }
    }

    /** The path taken when a note was split: everything goes through the buffer. */
    method Resume(bytes: seq<byte>) returns (notes: seq<Note>)
      modifies this
      ensures notes == NotesOf(old(partial) + bytes) && partial == Leftover(old(partial) + bytes)
    {
      notes := [];
      partial := partial + bytes;
      ghost var all := partial;
      while |partial| >= NOTE_LEN
        invariant NotesOf(all) == notes + NotesOf(partial) && Leftover(all) == Leftover(partial)
        decreases |partial|
      {
        var note := Decode(partial[..NOTE_LEN]);
        if note.Some? {
          notes := notes + [note.value];
        }
        partial := partial[NOTE_LEN..];
      }
    }

    /** The usual path: whole frames straight from the input. */
    method Straight(input: seq<byte>) returns (notes: seq<Note>)
      requires partial == []
      modifies this
      ensures notes == NotesOf(input) && partial == Leftover(input)
    {
      notes := [];
      var whole := |input| / NOTE_LEN * NOTE_LEN;
      var at := 0;
      while at < whole
        invariant 0 <= at <= whole && at % NOTE_LEN == 0 && partial == []
        invariant notes == NotesOf(input[..at]) && Leftover(input[..at]) == []
      {
        var frame := input[at..at + NOTE_LEN];
        OneMoreFrame(input[..at], frame);
        assert input[..at] + frame == input[..at + NOTE_LEN];
        var note := Decode(frame);
        if note.Some? {
          notes := notes + [note.value];
        }
        at := at + NOTE_LEN;
      }
      WholeAndRest(input, whole);
      partial := partial + input[whole..];
    }
  }

  function Joined(chunks: seq<seq<byte>>): seq<byte> {
    if chunks == [] then [] else Joined(chunks[..|chunks| - 1]) + chunks[|chunks| - 1]
  }

  /** Feeding a stream chunk by chunk: the notes so far, and what the reader holds. */
  function Fed(chunks: seq<seq<byte>>): (seq<Note>, seq<byte>) {
    if chunks == [] then ([], [])
    else
      var (notes, partial) := Fed(chunks[..|chunks| - 1]);
      var now := partial + chunks[|chunks| - 1];
      (notes + NotesOf(now), Leftover(now))
  }

  /** However the pipe splits the stream, the notes are the same. */
  lemma {:induction false} ChunkingDoesNotMatter(chunks: seq<seq<byte>>)
    ensures Fed(chunks) == (NotesOf(Joined(chunks)), Leftover(Joined(chunks)))
  {
    if chunks != [] {
      ChunkingDoesNotMatter(chunks[..|chunks| - 1]);
      NotesSplit(Joined(chunks[..|chunks| - 1]), chunks[|chunks| - 1]);
    }
  }

  ghost predicate Frames(frames: seq<seq<byte>>) {
    forall i :: 0 <= i < |frames| ==> |frames[i]| == NOTE_LEN
  }

  lemma {:induction false} FramesReadBack(frames: seq<seq<byte>>)
    requires Frames(frames)
    ensures |NotesOf(Joined(frames))| == |frames| && Leftover(Joined(frames)) == []
    ensures forall i :: 0 <= i < |frames| ==> Decode(frames[i]) == Some(NotesOf(Joined(frames))[i])
  {
    if frames != [] {
      var init, last := frames[..|frames| - 1], frames[|frames| - 1];
      FramesReadBack(init);
      OneMoreFrame(Joined(init), last);
    }
  }

  function EncodeAll(notes: seq<Note>): seq<byte> {
    Joined(MapSeq(Encode, notes))
  }

  lemma EncodedReadsBack(notes: seq<Note>)
    ensures NotesOf(EncodeAll(notes)) == notes && Leftover(EncodeAll(notes)) == []
  {
    FramesReadBack(MapSeq(Encode, notes));
    forall i | 0 <= i < |notes| ensures NotesOf(EncodeAll(notes))[i] == notes[i] {
      DecodeEncode(notes[i]);
    }
  }

  /** What a core reads is what the helper wrote, in order, however it arrives. */
  lemma WrittenIsRead(notes: seq<Note>, chunks: seq<seq<byte>>)
    requires Joined(chunks) == EncodeAll(notes)
    ensures Fed(chunks) == (notes, [])
  {
    ChunkingDoesNotMatter(chunks);
    EncodedReadsBack(notes);
  }
}
