/** `host/attachments.ts`: uploads in retryable chunks, previews in bounded reads. */
module Attachments {
  import opened Wrappers
  import opened Base64

  const MAX_REMOTE_ATTACHMENT_BYTES: nat := 20 * 1024 * 1024
  const MAX_CHUNK_BYTES: nat := 512 * 1024
  const READ_CHUNK_BYTES: nat := 3 * (MAX_CHUNK_BYTES / 3)

  type Files = map<string, seq<Byte>>

  datatype Error =
    | InvalidId | InvalidChunk | InvalidChunkSize | NoSuchFile | RetryMismatch | OutOfOrder
    | Incomplete | NotFound | InvalidOffset

  predicate IsHex(c: char) { '0' <= c <= '9' || 'a' <= c <= 'f' || 'A' <= c <= 'F' }

  predicate IsUuid(id: string) {
    && |id| == 36
    && (forall i :: 0 <= i < 36 ==> if i in {8, 13, 18, 23} then id[i] == '-' else IsHex(id[i]))
    && '1' <= id[14] <= '8'
    && id[19] in {'8', '9', 'a', 'b', 'A', 'B'}
  }

  /** One upload request, with the numbers already read as integers. */
  datatype Request = Request(id: string, offset: int, size: int, encoded: string)

  predicate ValidChunk(q: Request) {
    && 0 <= q.offset && 0 <= q.size <= MAX_REMOTE_ATTACHMENT_BYTES
    && |q.encoded| <= (MAX_CHUNK_BYTES + 2) / 3 * 4
    && WellFormed(q.encoded)
  }

  predicate ValidSize(q: Request)
    requires ValidChunk(q)
  {
    && |Decode(q.encoded)| <= MAX_CHUNK_BYTES
    && q.offset + |Decode(q.encoded)| <= q.size
  }

  function Stored(files: Files, id: string): seq<Byte> {
    if id in files then files[id] else []
  }

  /** What an upload request answers and leaves on disk. */
  function Write(files: Files, q: Request): (Result<nat, Error>, Files) {
    if !IsUuid(q.id) then (Err(InvalidId), files)
    else if !ValidChunk(q) then (Err(InvalidChunk), files)
    else if !ValidSize(q) then (Err(InvalidChunkSize), files)
    else if q.offset != 0 && q.id !in files then (Err(NoSuchFile), files)
    else
      var bytes, file := Decode(q.encoded), Stored(files, q.id);
      if |file| == q.offset then (Ok(q.offset + |bytes|), files[q.id := file + bytes])
      else if q.offset + |bytes| <= |file| then
        (if file[q.offset..q.offset + |bytes|] == bytes
         then Ok(q.offset + |bytes|) else Err(RetryMismatch), files[q.id := file])
      else (Err(OutOfOrder), files[q.id := file])
  }

  datatype Attachment = Attachment(id: string, isImage: bool, size: nat)

  datatype Piece = Piece(data: string, offset: nat, size: nat)

  /** The attachment directory. */
  class AttachmentStore {
    var files: Files

    constructor ()
      ensures files == map[]
    {
      files := map[];
    }

    method WriteAttachmentChunk(q: Request) returns (r: Result<nat, Error>)
      modifies this
      ensures (r, files) == Write(old(files), q)
    {
      if !IsUuid(q.id) {
        return Err(InvalidId);
      }
      if !ValidChunk(q) {
        return Err(InvalidChunk);
      }
      var bytes := Decode(q.encoded);
      if |bytes| > MAX_CHUNK_BYTES || q.offset + |bytes| > q.size {
        return Err(InvalidChunkSize);
      }
      if q.id !in files {
        if q.offset != 0 {
          return Err(NoSuchFile);
        }
        files := files[q.id := []];
      }
      assert files == files[q.id := files[q.id]];
      var length := |files[q.id]|;
      if length == q.offset {
        files := files[q.id := files[q.id] + bytes];
      } else if length >= q.offset + |bytes| {
        var existing := files[q.id][q.offset..q.offset + |bytes|];
        if existing != bytes {
          return Err(RetryMismatch);
        }
      } else {
        return Err(OutOfOrder);
      }
      r := Ok(q.offset + |bytes|);
      assert files == old(files)[q.id := files[q.id]];
    }

    /** Accepted attachments are complete. */
    method ResolveAttachments(refs: seq<Attachment>) returns (r: Result<seq<Attachment>, Error>)
      ensures r.Ok? <==> forall ref :: ref in refs ==>
                           IsUuid(ref.id) && ref.id in files && |files[ref.id]| == ref.size
      ensures r.Ok? ==> r.value == refs
    {
      for i := 0 to |refs|
        invariant forall k :: 0 <= k < i ==>
          && IsUuid(refs[k].id) && refs[k].id in files && |files[refs[k].id]| == refs[k].size
      {
        if !IsUuid(refs[i].id) {
          return Err(InvalidId);
        }
        if refs[i].id !in files {
          return Err(NoSuchFile);
        }
        if |files[refs[i].id]| != refs[i].size {
          return Err(Incomplete);
        }
      }
      r := Ok(refs);
    }

    /** `known` lists the attachments of the session's blocks, in order. */
    method ReadAttachmentChunk(known: seq<Attachment>, id: string, offset: int)
      returns (r: Result<Piece, Error>)
      ensures r == Read(files, known, id, offset)
    {
      hide Encode, IsUuid;
      var i := 0;
      while i < |known| && known[i].id != id
        invariant 0 <= i <= |known| && FindId(known, id) == FindId(known[i..], id)
      {
        i := i + 1;
      }
      if i == |known| || !known[i].isImage {
        return Err(NotFound);
      }
      var attachment := known[i];
      if offset < 0 || offset > attachment.size {
        return Err(InvalidOffset);
      }
      if !IsUuid(attachment.id) {
        return Err(InvalidId);
      }
      if attachment.id !in files {
        return Err(NoSuchFile);
      }
      var file := files[attachment.id];
      if |file| != attachment.size {
        return Err(Incomplete);
      }
      var length := if READ_CHUNK_BYTES < |file| - offset then READ_CHUNK_BYTES else |file| - offset;
      r := Ok(Piece(Encode(file[offset..offset + length]), offset + length, attachment.size));
    }
  }

  function FindId(known: seq<Attachment>, id: string): Option<Attachment> {
    if known == [] then None
    else if known[0].id == id then Some(known[0])
    else FindId(known[1..], id)
  }

  function Read(files: Files, known: seq<Attachment>, id: string, offset: int): Result<Piece, Error> {
    match FindId(known, id)
    case None => Err(NotFound)
    case Some(a) =>
      if !a.isImage then Err(NotFound)
      else if offset < 0 || offset > a.size then Err(InvalidOffset)
      else if !IsUuid(a.id) then Err(InvalidId)
      else if a.id !in files then Err(NoSuchFile)
      else if |files[a.id]| != a.size then Err(Incomplete)
      else
        var end := if offset + READ_CHUNK_BYTES < a.size then offset + READ_CHUNK_BYTES else a.size;
        Ok(Piece(Encode(files[a.id][offset..end]), end, a.size))
  }

  /** A preview is given only of an image that the session refers to, first under that name,
      and that is there in full. */
  lemma {:induction false} PreviewIsOfTheSession(files: Files, known: seq<Attachment>, id: string, offset: int)
    ensures Read(files, known, id, offset).Ok? <==>
              exists i: nat :: i < |known| && IsFirst(known, id, i) && known[i].isImage && 0 <= offset <= known[i].size
                          && IsUuid(id) && id in files && |files[id]| == known[i].size
  {
    if i: nat :| i < |known| && IsFirst(known, id, i) { FirstIsFound(known, id, i); }
    var found := FoundIsFirst(known, id);
    hide IsUuid, Encode, IsFirst;
  }

  ghost predicate IsFirst(known: seq<Attachment>, id: string, i: nat)
    requires i < |known|
  {
    known[i].id == id && forall k :: 0 <= k < i ==> known[k].id != id
  }

  lemma {:induction false} FirstIsFound(known: seq<Attachment>, id: string, i: nat)
    requires i < |known| && IsFirst(known, id, i)
    ensures FindId(known, id) == Some(known[i])
    decreases |known|
  {
    if i > 0 { FirstIsFound(known[1..], id, i - 1); }
  }

  lemma {:induction false} FoundIsFirst(known: seq<Attachment>, id: string) returns (i: nat)
    ensures FindId(known, id).Some? ==> i < |known| && IsFirst(known, id, i) && FindId(known, id).value == known[i]
    decreases |known|
  {
    i := 0;
    if known != [] && known[0].id != id {
      i := FoundIsFirst(known[1..], id);
      i := i + 1;
    }
  }

  // ---------------------------------------------------------------- uploads

  function Upload(files: Files, qs: seq<Request>): Files
    decreases |qs|
  {
    if qs == [] then files else Upload(Write(files, qs[0]).1, qs[1..])
  }

  /** Whatever is requested, a file only ever grows at its end, and an accepted
      chunk is found exactly where it was sent. */
  lemma WriteOnlyAppends(files: Files, q: Request, id: string)
    ensures var (r, files') := Write(files, q);
            && Stored(files, id) <= Stored(files', id)
            && (id != q.id ==> Stored(files, id) == Stored(files', id))
            && (r.Ok? ==> ValidChunk(q) && var end := q.offset + |Decode(q.encoded)|;
                 && r.value == end <= |Stored(files', q.id)|
                 && Stored(files', q.id)[q.offset..end] == Decode(q.encoded))
  {
    hide Decode, WellFormed, IsUuid;
  }

  /** Whatever is requested, what is stored has a valid name and is no larger than it was
      announced to be, nor than any attachment may be. */
  lemma WriteIsBounded(files: Files, q: Request)
    ensures var (r, files') := Write(files, q);
            && (r.Ok? ==> IsUuid(q.id) && r.value <= q.size <= MAX_REMOTE_ATTACHMENT_BYTES)
            && (forall id :: id in files' && id !in files ==> id == q.id && IsUuid(id))
            && (forall id :: id in files' && Stored(files', id) != Stored(files, id) ==>
                  IsUuid(id) && |Stored(files', id)| <= q.size <= MAX_REMOTE_ATTACHMENT_BYTES)
  {
    hide Decode, WellFormed, IsUuid;
  }

  ghost predicate AllBounded(files: Files) {
    forall id :: id in files ==> IsUuid(id) && |files[id]| <= MAX_REMOTE_ATTACHMENT_BYTES
  }

  lemma {:induction false} UploadsAreBounded(files: Files, qs: seq<Request>)
    requires AllBounded(files)
    ensures AllBounded(Upload(files, qs))
    decreases |qs|
  {
    if qs != [] {
      WriteIsBounded(files, qs[0]);
      BoundStays(files, qs[0]);
      hide AllBounded;
      UploadsAreBounded(Write(files, qs[0]).1, qs[1..]);
    }
  }

  lemma BoundStays(files: Files, q: Request)
    requires AllBounded(files)
    ensures AllBounded(Write(files, q).1)
  {
    WriteIsBounded(files, q);
    hide Write, IsUuid;
    var files' := Write(files, q).1;
    forall id | id in files' ensures IsUuid(id) && |files'[id]| <= MAX_REMOTE_ATTACHMENT_BYTES {
      assert Stored(files', id) == files'[id];
    }
  }

  lemma {:induction false} UploadOnlyAppends(files: Files, qs: seq<Request>, id: string)
    ensures Stored(files, id) <= Stored(Upload(files, qs), id)
    decreases |qs|
  {
    if qs != [] {
      WriteOnlyAppends(files, qs[0], id);
      UploadOnlyAppends(Write(files, qs[0]).1, qs[1..], id);
    }
  }

  /** Acknowledged bytes are there for good, through any later requests. */
  lemma AcknowledgedBytesStay(files: Files, q: Request, later: seq<Request>)
    requires Write(files, q).0.Ok?
    ensures ValidChunk(q)
    ensures var end := q.offset + |Decode(q.encoded)|;
            var file := Stored(Upload(Write(files, q).1, later), q.id);
            end <= |file| && file[q.offset..end] == Decode(q.encoded)
  {
    WriteOnlyAppends(files, q, q.id);
    UploadOnlyAppends(Write(files, q).1, later, q.id);
  }

  /** A request for `id` that carries the bytes of `content` at its offset. */
  ghost predicate CutFrom(q: Request, content: seq<Byte>) {
    q.size == |content| && exists end :: EncodesRange(q, content, end)
  }

  ghost predicate EncodesRange(q: Request, content: seq<Byte>, end: int) {
    0 <= q.offset <= end <= |content| && q.encoded == Encode(content[q.offset..end])
  }

  lemma CutDecodes(q: Request, content: seq<Byte>)
    requires CutFrom(q, content)
    ensures |q.encoded| % 4 == 0 && 0 <= q.offset && WellFormed(q.encoded)
    ensures var bytes := Decode(q.encoded);
            q.offset + |bytes| <= |content| && content[q.offset..q.offset + |bytes|] == bytes
  {
    var end :| EncodesRange(q, content, end);
    RoundTrip(content[q.offset..end]);
    EncodeIsWellFormed(content[q.offset..end]);
  }

  lemma GrowPrefix(file: seq<Byte>, bytes: seq<Byte>, content: seq<Byte>)
    requires file <= content
    ensures |file| + |bytes| <= |content| && content[|file|..|file| + |bytes|] == bytes ==>
              file + bytes <= content
  {
  }

  lemma OneCutKeepsThePrefix(files: Files, q: Request, id: string, content: seq<Byte>)
    requires Stored(files, id) <= content && (q.id == id ==> CutFrom(q, content))
    ensures Stored(Write(files, q).1, id) <= content
  {
    hide Decode, WellFormed;
    if q.id == id {
      CutDecodes(q, content);
      GrowPrefix(Stored(files, id), Decode(q.encoded), content);
    } else {
      WriteOnlyAppends(files, q, id);
    }
  }

  /** Chunks of one content, in any order, with any repeats and retries, among any
      requests for other files, leave a prefix of the content; a file of full
      length is the content. */
  lemma {:induction false} UploadIsAPrefix(files: Files, qs: seq<Request>, id: string, content: seq<Byte>)
    requires Stored(files, id) <= content
    requires forall q :: q in qs && q.id == id ==> CutFrom(q, content)
    ensures var file := Stored(Upload(files, qs), id);
            && Stored(files, id) <= file <= content
            && (|file| == |content| ==> file == content)
    decreases |qs|
  {
    if qs != [] {
      assert qs[0] in qs && forall q :: q in qs[1..] ==> q in qs;
      OneCutKeepsThePrefix(files, qs[0], id, content);
      WriteOnlyAppends(files, qs[0], id);
      UploadIsAPrefix(Write(files, qs[0]).1, qs[1..], id, content);
    }
  }

  /** An honest chunk is refused exactly when it starts past the end of the file
      or would overlap the end of the file. */
  lemma HonestChunkAccepted(files: Files, q: Request, content: seq<Byte>)
    requires IsUuid(q.id) && CutFrom(q, content) && Stored(files, q.id) <= content
    requires |content| <= MAX_REMOTE_ATTACHMENT_BYTES && ValidChunk(q)
    requires |Decode(q.encoded)| <= MAX_CHUNK_BYTES
    ensures var file, end := Stored(files, q.id), q.offset + |Decode(q.encoded)|;
            Write(files, q).0 ==
              if q.offset == |file| || end <= |file| then Ok(end)
              else if q.offset != 0 && q.id !in files then Err(NoSuchFile) else Err(OutOfOrder)
  {
    CutDecodes(q, content);
    hide Decode, WellFormed, IsUuid;
    var file, bytes := Stored(files, q.id), Decode(q.encoded);
    if q.offset + |bytes| <= |file| {
      assert file[q.offset..q.offset + |bytes|] == content[q.offset..q.offset + |bytes|];
    }
  }

  /** The requests of a client that uploads `content` from `offset` in steps. */
  function Cuts(id: string, content: seq<Byte>, offset: nat, step: nat): seq<Request>
    requires offset <= |content| && 0 < step
    decreases |content| - offset
  {
    var end := if offset + step < |content| then offset + step else |content|;
    [Request(id, offset, |content|, Encode(content[offset..end]))]
    + if end == |content| then [] else Cuts(id, content, end, step)
  }

  lemma WriteAtTheEnd(files: Files, q: Request)
    requires IsUuid(q.id) && ValidChunk(q) && ValidSize(q) && q.offset == |Stored(files, q.id)|
    ensures Write(files, q).1 == files[q.id := Stored(files, q.id) + Decode(q.encoded)]
  {
  }

  lemma NextCutIsAccepted(files: Files, id: string, content: seq<Byte>, end: nat)
    requires IsUuid(id) && Stored(files, id) <= content && |content| <= MAX_REMOTE_ATTACHMENT_BYTES
    requires |Stored(files, id)| <= end <= |content| && end - |Stored(files, id)| <= MAX_CHUNK_BYTES
    ensures var offset := |Stored(files, id)|;
            Write(files, Request(id, offset, |content|, Encode(content[offset..end]))).1
            == files[id := content[..end]]
  {
    hide Encode, Decode, WellFormed, Write;
    var offset := |Stored(files, id)|;
    var bytes := content[offset..end];
    var encoded := Encode(bytes);
    RoundTrip(bytes);
    EncodeIsWellFormed(bytes);
    WriteAtTheEnd(files, Request(id, offset, |content|, encoded));
    assert Stored(files, id) + bytes == content[..end];
  }

  /** Resuming where the file ends always completes it. */
  lemma {:induction false} ResumedUploadCompletes(files: Files, id: string, content: seq<Byte>, step: nat)
    requires IsUuid(id) && Stored(files, id) <= content && |content| <= MAX_REMOTE_ATTACHMENT_BYTES
    requires 0 < step <= MAX_CHUNK_BYTES
    ensures var files' := Upload(files, Cuts(id, content, |Stored(files, id)|, step));
            id in files' && files'[id] == content
    decreases |content| - |Stored(files, id)|
  {
    hide Write, Encode, IsUuid;
    var offset := |Stored(files, id)|;
    var end := if offset + step < |content| then offset + step else |content|;
    var qs := Cuts(id, content, offset, step);
    var files' := files[id := content[..end]];
    NextCutIsAccepted(files, id, content, end);
    assert Write(files, qs[0]).1 == files';
    if end == |content| {
      assert qs[1..] == [] && content[..end] == content;
      assert Upload(files', []) == files';
    } else {
      assert qs[1..] == Cuts(id, content, end, step);
      ResumedUploadCompletes(files', id, content, step);
    }
  }

  // --------------------------------------------------------------- previews

  /** The base64 a client collects by following the returned offsets; `get` is
      the endpoint for one attachment. */
  function Collected(get: nat -> Result<Piece, Error>, offset: nat, rounds: nat): Option<string>
    decreases rounds
  {
    match get(offset)
    case Err(_) => None
    case Ok(piece) =>
      if piece.offset == piece.size then Some(piece.data)
      else if rounds == 0 then None
      else match Collected(get, piece.offset, rounds - 1)
        case None => None
        case Some(rest) => Some(piece.data + rest)
  }

  function Endpoint(files: Files, known: seq<Attachment>, id: string): nat -> Result<Piece, Error> {
    (offset: nat) => Read(files, known, id, offset)
  }

  function ReadEnd(size: nat, offset: nat): nat {
    if offset + READ_CHUNK_BYTES < size then offset + READ_CHUNK_BYTES else size
  }

  lemma ReadGivesTheRange(files: Files, known: seq<Attachment>, id: string, offset: nat)
    requires Read(files, known, id, 0).Ok? && offset <= |Stored(files, id)|
    ensures var file := Stored(files, id);
            var end := ReadEnd(|file|, offset);
            offset <= end <= |file|
            && Read(files, known, id, offset) == Ok(Piece(Encode(file[offset..end]), end, |file|))
  {
    FindIdFinds(known, id);
  }

  lemma RangesJoin(file: seq<Byte>, offset: nat, end: nat)
    requires offset <= end <= |file| && (end - offset) % 3 == 0
    ensures Encode(file[offset..]) == Encode(file[offset..end]) + Encode(file[end..])
  {
    assert file[offset..] == file[offset..end] + file[end..];
    EncodeJoins(file[offset..end], file[end..]);
  }

  /** Joining the pieces gives the base64 of the rest of the file, in a bounded
      number of reads. */
  lemma {:induction false} CollectedIsTheRest(
      get: nat -> Result<Piece, Error>, file: seq<Byte>, offset: nat, rounds: nat)
    requires forall o: nat :: o <= |file| ==>
               get(o) == Ok(Piece(Encode(file[o..ReadEnd(|file|, o)]), ReadEnd(|file|, o), |file|))
    requires offset <= |file| && |file| - offset <= READ_CHUNK_BYTES * rounds
    ensures Collected(get, offset, rounds) == Some(Encode(file[offset..]))
    decreases rounds
  {
    hide Encode;
    var end := ReadEnd(|file|, offset);
    if end == |file| {
      assert file[offset..end] == file[offset..];
    } else {
      RangesJoin(file, offset, end);
      CollectedIsTheRest(get, file, end, rounds - 1);
    }
  }

  lemma {:induction false} FindIdFinds(known: seq<Attachment>, id: string)
    ensures FindId(known, id).Some? ==> FindId(known, id).value in known && FindId(known, id).value.id == id
  {
    if known != [] { FindIdFinds(known[1..], id); }
  }

  lemma EnoughRounds(size: nat)
    ensures size <= READ_CHUNK_BYTES * (size / READ_CHUNK_BYTES + 1)
  {
  }

  /** A whole preview: the collected pieces are the base64 of the stored file, and
      decoding them gives the file. */
  lemma PreviewIsTheFile(files: Files, known: seq<Attachment>, id: string)
    requires Read(files, known, id, 0).Ok?
    ensures var file := Stored(files, id);
            var r := Collected(Endpoint(files, known, id), 0, |file| / READ_CHUNK_BYTES + 1);
            r == Some(Encode(file)) && |Encode(file)| % 4 == 0 && Decode(r.value) == file
  {
    hide Encode, Decode, Read, Collected;
    var file, get := Stored(files, id), Endpoint(files, known, id);
    forall o: nat | o <= |file|
      ensures get(o) == Ok(Piece(Encode(file[o..ReadEnd(|file|, o)]), ReadEnd(|file|, o), |file|))
    {
      ReadGivesTheRange(files, known, id, o);
    }
    EnoughRounds(|file|);
    CollectedIsTheRest(get, file, 0, |file| / READ_CHUNK_BYTES + 1);
    assert file[0..] == file;
    RoundTrip(file);
  }
}
