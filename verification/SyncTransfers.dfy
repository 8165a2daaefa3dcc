/** `host/sync-transfer.ts`: a sync too large for one response is read in bounded
    pieces of its serialized text. */
module SyncTransfers {
  import opened Wrappers

  const TRANSFER_TTL_MS: nat := 120_000
  const MAX_TRANSFERS: nat := 8

  /** A JavaScript string: UTF-16 code units. */
  newtype Unit = u: int | 0 <= u < 0x1_0000
  type Text = seq<Unit>

  predicate IsHigh(u: Unit) { 0xD800 <= u <= 0xDBFF }

  predicate IsLow(u: Unit) { 0xDC00 <= u <= 0xDFFF }

  /** Every surrogate is half of a pair. */
  ghost predicate WellFormed(t: Text) {
    && (forall i :: 0 <= i < |t| && IsHigh(t[i]) ==> i + 1 < |t| && IsLow(t[i + 1]))
    && (forall i :: 0 <= i < |t| && IsLow(t[i]) ==> 0 < i && IsHigh(t[i - 1]))
  }

  predicate PairAt(t: Text, i: nat) { i + 1 < |t| && IsHigh(t[i]) && IsLow(t[i + 1]) }

  // ----------------------------------------------------------- byte lengths

  /** Bytes of one unit in UTF-8 (section 3 of RFC 3629); a lone surrogate is
      written as the three-byte replacement character. */
  function Utf8Unit(u: Unit): nat {
    if u < 0x80 then 1 else if u < 0x800 then 2 else 3
  }

  function Utf8Bytes(t: Text): nat {
    if t == [] then 0
    else if PairAt(t, 0) then 4 + Utf8Bytes(t[2..])
    else Utf8Unit(t[0]) + Utf8Bytes(t[1..])
  }

  /** Bytes of one unit inside a JSON string literal (section 7 of RFC 8259):
      short escapes, `\u00XX` for other controls, `\udXXX` for lone surrogates. */
  function JsonUnit(u: Unit): nat {
    if u == 0x22 || u == 0x5C then 2
    else if u == 8 || u == 9 || u == 10 || u == 12 || u == 13 then 2
    else if u < 0x20 then 6
    else if IsHigh(u) || IsLow(u) then 6
    else Utf8Unit(u)
  }

  function JsonUnits(t: Text): nat {
    if t == [] then 0
    else if PairAt(t, 0) then 4 + JsonUnits(t[2..])
    else JsonUnit(t[0]) + JsonUnits(t[1..])
  }

  /** `encodedBytes`: the length of the JSON string literal in UTF-8. */
  function EncodedBytes(t: Text): nat { 2 + JsonUnits(t) }

  lemma {:induction false} Utf8Bound(t: Text)
    ensures Utf8Bytes(t) <= 3 * |t|
    decreases |t|
  {
    if t == [] {
    } else if PairAt(t, 0) {
      Utf8Bound(t[2..]);
    } else {
      Utf8Bound(t[1..]);
    }
  }

  lemma {:induction false} JsonBound(t: Text)
    ensures JsonUnits(t) <= 6 * |t|
    decreases |t|
  {
    if t == [] {
    } else if PairAt(t, 0) {
      JsonBound(t[2..]);
    } else {
      JsonBound(t[1..]);
    }
  }

  /** Dropping a trailing high surrogate shortens the literal. */
  lemma {:induction false} JsonDropsHigh(t: Text)
    requires t != [] && IsHigh(t[|t| - 1])
    ensures JsonUnits(t[..|t| - 1]) < JsonUnits(t)
    decreases |t|
  {
    if |t| == 1 {
    } else if PairAt(t, 0) {
      assert t[2..][..|t| - 3] == t[..|t| - 1][2..];
      JsonDropsHigh(t[2..]);
    } else {
      assert t[1..][..|t| - 2] == t[..|t| - 1][1..];
      JsonDropsHigh(t[1..]);
    }
  }

  // ------------------------------------------------------------- one piece

  /** The first candidate end of a piece. */
  function FirstEnd(length: nat, offset: nat, limit: nat): (end: nat)
    requires offset <= length
    ensures offset <= end <= length && (offset < length ==> offset < end)
  {
    var step := if limit * 2 / 3 > 1 then limit * 2 / 3 else 1;
    if offset + step < length then offset + step else length
  }

  function Halved(t: Text, offset: nat, end: nat, limit: nat): (e: nat)
    requires offset <= end <= |t|
    ensures offset <= e <= end && (offset < end ==> offset < e)
    decreases end - offset
  {
    if end - offset > 1 && EncodedBytes(t[offset..end]) > limit
    then Halved(t, offset, offset + (end - offset + 1) / 2, limit)
    else end
  }

  /** Steps back from the first half of a surrogate pair. */
  function Unsplit(t: Text, offset: nat, end: nat): (e: nat)
    requires offset <= end <= |t|
    ensures offset <= e <= end && (offset < end ==> offset < e)
  {
    if 0 < end < |t| && end - offset > 1 && IsHigh(t[end - 1]) then end - 1 else end
  }

  function PieceEnd(t: Text, offset: nat, limit: nat): (end: nat)
    requires offset <= |t|
    ensures offset <= end <= |t| && (offset < |t| ==> offset < end)
  {
    Unsplit(t, offset, Halved(t, offset, FirstEnd(|t|, offset, limit), limit))
  }

  /** All the pieces a reader gets who starts at `offset` and advances by the
      length of each answer. */
  function Pieces(t: Text, offset: nat, limit: nat): seq<Text>
    requires offset <= |t|
    decreases |t| - offset
  {
    if offset == |t| then []
    else var end := PieceEnd(t, offset, limit);
         [t[offset..end]] + Pieces(t, end, limit)
  }

  function Joined(pieces: seq<Text>): Text {
    if pieces == [] then [] else pieces[0] + Joined(pieces[1..])
  }

  // ------------------------------------------------- properties of a piece

  ghost predicate SplitsPair(t: Text, i: nat) { 0 < i < |t| && IsHigh(t[i - 1]) && IsLow(t[i]) }

  lemma {:induction false} HalvedFits(t: Text, offset: nat, end: nat, limit: nat)
    requires offset < end <= |t| && 8 <= limit
    ensures var e := Halved(t, offset, end, limit);
            EncodedBytes(t[offset..e]) <= limit && (e == end || 12 * (e - offset) > limit - 2)
    decreases end - offset
  {
    JsonBound(t[offset..end]);
    if end - offset > 1 && EncodedBytes(t[offset..end]) > limit {
      HalvedFits(t, offset, offset + (end - offset + 1) / 2, limit);
    }
  }

  lemma PairIsShort(t: Text, i: nat)
    ensures PairAt(t, i) ==> EncodedBytes(t[i..i + 2]) == 6
  {
    if PairAt(t, i) {
      assert PairAt(t[i..i + 2], 0) && t[i..i + 2][2..] == [];
      assert JsonUnits(t[i..i + 2]) == 4 + JsonUnits([]);
    }
  }

  /** Halving stops at one unit only where that unit is no half of a pair. */
  lemma {:induction false} HalvedKeepsPairs(t: Text, offset: nat, end: nat, limit: nat)
    requires offset < end <= |t| && 6 <= limit
    requires end - offset > 1 || end == |t| || !PairAt(t, offset)
    ensures var e := Halved(t, offset, end, limit);
            e - offset > 1 || e == |t| || !PairAt(t, offset)
    decreases end - offset
  {
    if end - offset > 1 && EncodedBytes(t[offset..end]) > limit {
      PairIsShort(t, offset);
      HalvedKeepsPairs(t, offset, offset + (end - offset + 1) / 2, limit);
    }
  }

  lemma SliceIsWellFormed(t: Text, offset: nat, end: nat)
    requires WellFormed(t) && offset <= end <= |t| && !SplitsPair(t, offset) && !SplitsPair(t, end)
    ensures WellFormed(t[offset..end])
  {
    var piece := t[offset..end];
    forall i | 0 <= i < |piece| && IsHigh(piece[i])
      ensures i + 1 < |piece| && IsLow(piece[i + 1])
    {
      assert t[offset + i] == piece[i];
    }
    forall i | 0 <= i < |piece| && IsLow(piece[i])
      ensures 0 < i && IsHigh(piece[i - 1])
    {
      assert t[offset + i] == piece[i];
      assert IsHigh(t[offset + i - 1]);
    }
  }

  lemma UnsplitKeepsPairs(t: Text, offset: nat, e: nat)
    requires WellFormed(t) && offset < e <= |t|
    requires e - offset > 1 || e == |t| || !PairAt(t, offset)
    ensures var end := Unsplit(t, offset, e);
            !SplitsPair(t, end) && e - 1 <= end && EncodedBytes(t[offset..end]) <= EncodedBytes(t[offset..e])
  {
    var end := Unsplit(t, offset, e);
    if end < e {
      var piece := t[offset..e];
      JsonDropsHigh(piece);
      assert piece[..|piece| - 1] == t[offset..end];
      assert !IsLow(t[end]);
    }
  }

  /** From a limit of 6 on, no piece separates a surrogate pair. */
  lemma PieceIsWhole(t: Text, offset: nat, limit: nat)
    requires WellFormed(t) && 6 <= limit && offset < |t|
    ensures !SplitsPair(t, PieceEnd(t, offset, limit))
  {
    var first := FirstEnd(|t|, offset, limit);
    assert first == |t| || first - offset >= 4;
    HalvedKeepsPairs(t, offset, first, limit);
    UnsplitKeepsPairs(t, offset, Halved(t, offset, first, limit));
  }

  /** One piece stays within the limit, never separates a surrogate pair, and is
      not needlessly short unless it is the last. */
  lemma PieceIsBoundedAndWhole(t: Text, offset: nat, limit: nat)
    requires WellFormed(t) && 8 <= limit && offset < |t| && !SplitsPair(t, offset)
    ensures var end := PieceEnd(t, offset, limit);
            && EncodedBytes(t[offset..end]) <= limit
            && !SplitsPair(t, end) && WellFormed(t[offset..end])
            && (end < |t| ==> 12 * (end - offset) > limit - 14)
  {
    var first := FirstEnd(|t|, offset, limit);
    assert first == |t| || (12 * (first - offset) > limit - 2 && first - offset >= 5);
    HalvedFits(t, offset, first, limit);
    HalvedKeepsPairs(t, offset, first, limit);
    var e := Halved(t, offset, first, limit);
    UnsplitKeepsPairs(t, offset, e);
    SliceIsWellFormed(t, offset, Unsplit(t, offset, e));
  }

  /** Reading from any offset terminates and gives back the rest of the text. From a
      limit of 8 on every piece is bounded, well formed and, but for the last, of
      useful size. */
  lemma {:induction false} PiecesRebuildTheText(t: Text, offset: nat, limit: nat)
    requires offset <= |t|
    ensures Joined(Pieces(t, offset, limit)) == t[offset..]
    ensures forall p :: p in Pieces(t, offset, limit) ==> p != []
    ensures WellFormed(t) && !SplitsPair(t, offset) && 8 <= limit ==>
              var ps := Pieces(t, offset, limit);
              && (forall p :: p in ps ==> WellFormed(p) && EncodedBytes(p) <= limit)
              && (forall i :: 0 <= i < |ps| - 1 ==> 12 * |ps[i]| > limit - 14)
    decreases |t| - offset
  {
    hide PieceEnd, EncodedBytes, WellFormed, SplitsPair;
    if offset == |t| {
      assert t[offset..] == [];
    } else {
      var end := PieceEnd(t, offset, limit);
      var ps, rest := Pieces(t, offset, limit), Pieces(t, end, limit);
      PiecesRebuildTheText(t, end, limit);
      assert ps[1..] == rest;
      assert t[offset..] == t[offset..end] + t[end..];
      if WellFormed(t) && !SplitsPair(t, offset) && 8 <= limit {
        PieceIsBoundedAndWhole(t, offset, limit);
        forall i | 0 <= i < |ps| - 1 ensures 12 * |ps[i]| > limit - 14 {
          if i == 0 { assert end < |t|; } else { assert ps[i] == rest[i - 1]; }
        }
      }
    }
  }

  ghost predicate PiecesFit(limit: nat) {
    forall t: Text, offset: nat :: WellFormed(t) && offset < |t| && !SplitsPair(t, offset) ==>
      EncodedBytes(t[offset..PieceEnd(t, offset, limit)]) <= limit
  }

  ghost predicate PiecesKeepPairs(limit: nat) {
    forall t: Text, offset: nat :: WellFormed(t) && offset < |t| && !SplitsPair(t, offset) ==>
      !SplitsPair(t, PieceEnd(t, offset, limit))
  }

  /** Every piece fits exactly from a limit of 8 on, that of one escaped control
      character; pairs stay whole exactly from 6 on, that of one pair. */
  lemma LimitsAreExact(limit: nat)
    ensures PiecesFit(limit) <==> 8 <= limit
    ensures PiecesKeepPairs(limit) <==> 6 <= limit
  {
    var control: Text := [0];
    var pair: Text := [0xD83D, 0xDE00];
    if 8 <= limit {
      forall t: Text, offset: nat | WellFormed(t) && offset < |t| && !SplitsPair(t, offset)
        ensures EncodedBytes(t[offset..PieceEnd(t, offset, limit)]) <= limit
      {
        PieceIsBoundedAndWhole(t, offset, limit);
      }
    } else {
      OverlongControl(control, limit);
    }
    if 6 <= limit {
      forall t: Text, offset: nat | WellFormed(t) && offset < |t| && !SplitsPair(t, offset)
        ensures !SplitsPair(t, PieceEnd(t, offset, limit))
      {
        PieceIsWhole(t, offset, limit);
      }
    } else {
      SplitPair(pair, limit);
    }
  }

  lemma OverlongControl(t: Text, limit: nat)
    requires t == [0] && limit < 8
    ensures !PiecesFit(limit)
  {
    assert PieceEnd(t, 0, limit) == 1 && t[0..1] == t;
    assert JsonUnits(t) == 6;
    assert WellFormed(t) && !SplitsPair(t, 0);
  }

  lemma SplitPair(t: Text, limit: nat)
    requires t == [0xD83D, 0xDE00] && limit < 6
    ensures !PiecesKeepPairs(limit)
  {
    assert t[0..2] == t && JsonUnits(t) == 4;
    assert Halved(t, 0, 1, limit) == 1 && Halved(t, 0, 2, limit) == 1;
    assert PieceEnd(t, 0, limit) == 1;
    assert WellFormed(t) && !SplitsPair(t, 0) && SplitsPair(t, 1);
  }

  // -------------------------------------------------------------- transfers

  datatype Transfer = Transfer(sessionId: string, text: Text, expires: nat)

  /** What `respond` answers: the sync itself, or a transfer to read. */
  datatype Response = Inline | Chunked(transfer: string, length: nat)

  datatype ChunkError = Expired | InvalidOffset

  /** Where the piece at `offset` ends: halve until it fits, then keep pairs whole. */
  method FindEnd(text: Text, offset: nat, limit: nat) returns (end: nat)
    requires offset <= |text|
    ensures end == PieceEnd(text, offset, limit)
  {
    hide JsonUnits;
    var step := if limit * 2 / 3 > 1 then limit * 2 / 3 else 1;
    end := if offset + step < |text| then offset + step else |text|;
    ghost var first := end;
    while end - offset > 1 && EncodedBytes(text[offset..end]) > limit
      invariant offset <= end <= |text|
      invariant Halved(text, offset, first, limit) == Halved(text, offset, end, limit)
      decreases end - offset
    {
      end := offset + (end - offset + 1) / 2;
    }
    if 0 < end < |text| && end - offset > 1 && IsHigh(text[end - 1]) {
      end := end - 1;
    }
  }

  class SyncTransfers {
    const inlineLimit: nat
    const chunkLimit: nat
    /** A JavaScript Map: entries, and their keys in insertion order. */
    var transfers: map<string, Transfer>
    var order: seq<string>

    ghost predicate Valid()
      reads this
    {
      && |order| <= MAX_TRANSFERS
      && (forall k :: k in order <==> k in transfers)
      && Distinct(order)
    }

    constructor (inlineLimit: nat, chunkLimit: nat)
      ensures Valid() && transfers == map[]
      ensures this.inlineLimit == inlineLimit && this.chunkLimit == chunkLimit
    {
      this.inlineLimit, this.chunkLimit := inlineLimit, chunkLimit;
      transfers, order := map[], [];
    }

    method Delete(key: string)
      requires Valid()
      modifies this
      ensures Valid()
      ensures transfers == old(transfers) - {key}
      ensures order == Without(old(order), key)
    {
      WithoutKeepsOthers(order, key);
      transfers := transfers - {key};
      order := Without(order, key);
    }

    method DropExpired(now: nat)
      requires Valid()
      modifies this
      ensures Valid()
      ensures order == Fresh(old(order), old(transfers), now)
      ensures forall k :: k in transfers ==> k in old(transfers) && transfers[k] == old(transfers)[k]
    {
      var keys := order;
      ghost var was := transfers;
      var i := 0;
      assert keys[0..] == keys;
      while i < |keys|
        invariant 0 <= i <= |keys| && Valid()
        invariant forall k :: k in transfers ==> k in was && transfers[k] == was[k]
        invariant order == Fresh(keys[..i], was, now) + keys[i..]
      {
        var key := keys[i];
        ExpiryStep(order, keys, i, was, now);
        if transfers[key].expires < now {
          Delete(key);
        }
        i := i + 1;
      }
      assert keys[..i] == keys && order == Fresh(keys, was, now) + [];
    }

    /** Drops expired transfers, then the oldest until one more fits. */
    method Prune(now: nat)
      requires Valid()
      modifies this
      ensures Valid() && |order| < MAX_TRANSFERS
      ensures forall k :: k in transfers ==> k in old(transfers) && transfers[k] == old(transfers)[k]
      ensures forall k :: k in transfers ==> now <= transfers[k].expires
      ensures order == LastOf(Fresh(old(order), old(transfers), now), MAX_TRANSFERS - 1)
    {
      ghost var was := transfers;
      hide Fresh, Without;
      FreshIsFresh(order, was, now);
      DropExpired(now);
      ghost var live := order;
      assert live[0..] == live;
      while MAX_TRANSFERS <= |order|
        invariant Valid() && |order| <= |live|
        invariant forall k :: k in transfers ==> k in was && transfers[k] == was[k]
        invariant order == live[|live| - |order|..]
        invariant |live| < MAX_TRANSFERS ==> order == live
        invariant MAX_TRANSFERS <= |live| ==> MAX_TRANSFERS - 1 <= |order|
        decreases |order|
      {
        assert order == [] + ([order[0]] + order[1..]);
        WithoutMiddle(order, [], order[0], order[1..]);
        Delete(order[0]);
      }
      forall k | k in transfers ensures now <= transfers[k].expires {
        assert k in order;
        assert k in live;
      }
    }

    /** `sync` is already known to differ from the client's revision; `text` is
        its serialization and `id` a fresh UUID. */
    method Respond(sessionId: string, text: Text, id: string, now: nat) returns (r: Response)
      requires Valid() && id !in transfers
      modifies this
      ensures Valid()
      ensures r == Inline <==> Utf8Bytes(text) <= inlineLimit
      ensures r == Inline ==> transfers == old(transfers) && order == old(order)
      ensures r != Inline ==>
                && r == Chunked(id, |text|)
                && id in transfers
                && transfers[id] == Transfer(sessionId, text, now + TRANSFER_TTL_MS)
                && order == LastOf(Fresh(old(order), old(transfers), now), MAX_TRANSFERS - 1) + [id]
                && forall k :: k in transfers && k != id ==> k in old(transfers) && transfers[k] == old(transfers)[k]
    {
      Utf8Bound(text);
      if |text| * 3 <= inlineLimit || Utf8Bytes(text) <= inlineLimit {
        return Inline;
      }
      Prune(now);
      transfers := transfers[id := Transfer(sessionId, text, now + TRANSFER_TTL_MS)];
      order := order + [id];
      r := Chunked(id, |text|);
    }

    /** Serves the piece at `offset`; the last piece ends the transfer. */
    method Chunk(sessionId: string, transfer: string, offset: int, now: nat)
      returns (r: Result<Text, ChunkError>)
      requires Valid()
      modifies this
      ensures Valid()
      ensures r == ChunkAnswer(old(transfers), sessionId, transfer, offset, now, chunkLimit)
      ensures transfers == AfterChunk(old(transfers), sessionId, transfer, offset, now, chunkLimit)
    {
      if transfer !in transfers
         || transfers[transfer].sessionId != sessionId
         || transfers[transfer].expires < now {
        return Err(Expired);
      }
      var entry := transfers[transfer];
      if offset < 0 || offset > |entry.text| {
        return Err(InvalidOffset);
      }
      var end := FindEnd(entry.text, offset, chunkLimit);
      r := Ok(entry.text[offset..end]);
      transfers := transfers[transfer := entry.(expires := now + TRANSFER_TTL_MS)];
      if end == |entry.text| {
        Delete(transfer);
      }
    }
  }

  predicate Distinct(s: seq<string>) { forall i, j :: 0 <= i < j < |s| ==> s[i] != s[j] }

  function Without(s: seq<string>, key: string): seq<string> {
    if s == [] then [] else (if s[0] == key then [] else [s[0]]) + Without(s[1..], key)
  }

  function Fresh(keys: seq<string>, entries: map<string, Transfer>, now: nat): seq<string> {
    if keys == [] then []
    else (if keys[0] in entries && entries[keys[0]].expires < now then [] else [keys[0]])
         + Fresh(keys[1..], entries, now)
  }

  function LastOf(s: seq<string>, n: nat): seq<string> {
    if |s| <= n then s else s[|s| - n..]
  }

  /** The answer of `chunk`, from the transfers alone. */
  function ChunkAnswer(ts: map<string, Transfer>, sessionId: string, id: string, offset: int,
                       now: nat, limit: nat): Result<Text, ChunkError>
  {
    if id !in ts || ts[id].sessionId != sessionId || ts[id].expires < now then Err(Expired)
    else if offset < 0 || offset > |ts[id].text| then Err(InvalidOffset)
    else Ok(ts[id].text[offset..PieceEnd(ts[id].text, offset, limit)])
  }

  function AfterChunk(ts: map<string, Transfer>, sessionId: string, id: string, offset: int,
                      now: nat, limit: nat): map<string, Transfer>
  {
    match ChunkAnswer(ts, sessionId, id, offset, now, limit)
    case Err(_) => ts
    case Ok(data) =>
      if offset + |data| == |ts[id].text| then ts - {id}
      else ts[id := ts[id].(expires := now + TRANSFER_TTL_MS)]
  }

  /** A piece is given to the session the transfer is for, in time and from a place in the
      text; it is what comes next there. The transfer then lasts as long again, or is over. */
  lemma OnlyItsReaderIsAnswered(ts: map<string, Transfer>, sessionId: string, id: string, offset: int, now: nat, limit: nat)
    ensures var r, ts' := ChunkAnswer(ts, sessionId, id, offset, now, limit), AfterChunk(ts, sessionId, id, offset, now, limit);
            && (r == Err(Expired) <==> !(id in ts && ts[id].sessionId == sessionId && now <= ts[id].expires))
            && (r == Err(InvalidOffset) <==>
                  id in ts && ts[id].sessionId == sessionId && now <= ts[id].expires && !(0 <= offset <= |ts[id].text|))
            && (r.Err? ==> ts' == ts)
            && (r.Ok? ==>
                  && id in ts && 0 <= offset && offset + |r.value| <= |ts[id].text|
                  && r.value == ts[id].text[offset..offset + |r.value|]
                  && (r.value == [] ==> offset == |ts[id].text|)
                  && (id in ts' <==> offset + |r.value| < |ts[id].text|)
                  && (id in ts' ==> ts'[id] == Transfer(ts[id].sessionId, ts[id].text, now + TRANSFER_TTL_MS))
                  && forall k :: k != id ==> (k in ts' <==> k in ts) && (k in ts ==> ts'[k] == ts[k]))
  {
    hide Halved, FirstEnd, Unsplit;
  }

  lemma {:induction false} WithoutKeepsOthers(s: seq<string>, key: string)
    ensures forall k :: k in Without(s, key) <==> k in s && k != key
    ensures |Without(s, key)| <= |s|
    ensures Distinct(s) ==> Distinct(Without(s, key))
  {
    if s != [] {
      WithoutKeepsOthers(s[1..], key);
      assert forall k :: k in s <==> k == s[0] || k in s[1..];
      if Distinct(s) {
        assert Distinct(s[1..]) && s[0] !in s[1..];
        assert forall k :: 0 <= k < |Without(s[1..], key)| ==>
            Without(s[1..], key)[k] in Without(s[1..], key);
      }
    }
  }

  lemma {:induction false} WithoutAbsent(s: seq<string>, key: string)
    requires key !in s
    ensures Without(s, key) == s
  {
    if s != [] { WithoutAbsent(s[1..], key); }
  }

  lemma {:induction false} WithoutMiddle(s: seq<string>, a: seq<string>, key: string, b: seq<string>)
    requires s == a + ([key] + b) && Distinct(s)
    ensures Without(s, key) == a + b
    decreases |a|
  {
    if a == [] {
      assert s[1..] == b;
      forall k | 0 <= k < |b| ensures b[k] != key { assert s[1 + k] == b[k] && s[0] == key; }
      WithoutAbsent(b, key);
    } else {
      assert s[1..] == a[1..] + ([key] + b);
      WithoutMiddle(s[1..], a[1..], key, b);
      assert s[|a|] == key && s[0] == a[0];
      assert [a[0]] + (a[1..] + b) == a + b;
    }
  }

  lemma {:induction false} FreshSnoc(keys: seq<string>, k: string, entries: map<string, Transfer>, now: nat)
    ensures Fresh(keys + [k], entries, now) == Fresh(keys, entries, now)
            + if k in entries && entries[k].expires < now then [] else [k]
  {
    if keys == [] {
      assert keys + [k] == [k];
    } else {
      assert (keys + [k])[1..] == keys[1..] + [k];
      FreshSnoc(keys[1..], k, entries, now);
      var first := if keys[0] in entries && entries[keys[0]].expires < now then [] else [keys[0]];
      var last := if k in entries && entries[k].expires < now then [] else [k];
      assert first + (Fresh(keys[1..], entries, now) + last) == (first + Fresh(keys[1..], entries, now)) + last;
    }
  }

  lemma ExpiryStep(order: seq<string>, keys: seq<string>, i: nat, was: map<string, Transfer>, now: nat)
    requires i < |keys| && Distinct(order) && order == Fresh(keys[..i], was, now) + keys[i..]
    ensures keys[i] in order
    ensures (if keys[i] in was && was[keys[i]].expires < now then Without(order, keys[i]) else order)
            == Fresh(keys[..i + 1], was, now) + keys[i + 1..]
  {
    hide Fresh, Without;
    var key, kept := keys[i], Fresh(keys[..i], was, now);
    FreshSnoc(keys[..i], key, was, now);
    assert keys[..i] + [key] == keys[..i + 1] && keys[i..] == [key] + keys[i + 1..];
    assert order[|kept|] == key;
    assert kept + [key] + keys[i + 1..] == kept + ([key] + keys[i + 1..]);
    WithoutMiddle(order, kept, key, keys[i + 1..]);
    assert kept + [] == kept;
  }

  lemma {:induction false} FreshIsFresh(keys: seq<string>, entries: map<string, Transfer>, now: nat)
    ensures forall k :: k in Fresh(keys, entries, now) ==>
              k in keys && (k in entries ==> now <= entries[k].expires)
  {
    if keys != [] { FreshIsFresh(keys[1..], entries, now); }
  }

  lemma {:induction false} FreshIff(keys: seq<string>, entries: map<string, Transfer>, now: nat, k: string)
    ensures k in Fresh(keys, entries, now) <==> k in keys && !(k in entries && entries[k].expires < now)
    decreases |keys|
  {
    if keys != [] {
      FreshIff(keys[1..], entries, now, k);
      assert k in keys <==> k == keys[0] || k in keys[1..];
    }
  }

  lemma {:induction false} FreshJoins(a: seq<string>, b: seq<string>, entries: map<string, Transfer>, now: nat)
    ensures Fresh(a + b, entries, now) == Fresh(a, entries, now) + Fresh(b, entries, now)
    decreases |a|
  {
    if a == [] {
      assert a + b == b;
    } else {
      assert (a + b)[1..] == a[1..] + b;
      FreshJoins(a[1..], b, entries, now);
    }
  }

  /** What pruning leaves are the last of the transfers that have not expired, as they stood:
      whatever comes before or after a place in the list stays before or after it. */
  lemma PruningKeeps(a: seq<string>, b: seq<string>, entries: map<string, Transfer>, now: nat, n: nat, k: string)
    ensures var live := Fresh(a + b, entries, now);
            var last := LastOf(live, n);
            && (k in live <==> k in a + b && (k in entries ==> now <= entries[k].expires))
            && live == Fresh(a, entries, now) + Fresh(b, entries, now)
            && |last| == (if |live| < n then |live| else n) && last == live[|live| - |last|..]
  {
    FreshIff(a + b, entries, now, k);
    FreshJoins(a, b, entries, now);
    hide Fresh;
  }

  // ------------------------------------------------------- a whole transfer

  /** A reader's requests: each starts where the last answer ended, at the given
      times. Returns the pieces received, or None when one is refused. */
  function ReadAll(ts: map<string, Transfer>, sessionId: string, id: string, offset: nat,
                   times: seq<nat>, limit: nat): Option<seq<Text>>
    decreases |times|
  {
    if times == [] then Some([])
    else match ChunkAnswer(ts, sessionId, id, offset, times[0], limit)
      case Err(_) => None
      case Ok(data) =>
        match ReadAll(AfterChunk(ts, sessionId, id, offset, times[0], limit),
                      sessionId, id, offset + |data|, times[1..], limit)
        case None => None
        case Some(rest) => Some([data] + rest)
  }

  ghost predicate InTime(expires: nat, times: seq<nat>)
    decreases |times|
  {
    times == [] ||
    (times[0] <= expires && InTime(times[0] + TRANSFER_TTL_MS, times[1..]))
  }

  /** A reader who never pauses past the time to live and asks once per piece
      receives exactly the pieces of the text, and the transfer is then gone. */
  lemma {:induction false} ReaderGetsEveryPiece(
      ts: map<string, Transfer>, sessionId: string, id: string, offset: nat,
      times: seq<nat>, limit: nat)
    requires id in ts && ts[id].sessionId == sessionId && offset < |ts[id].text|
    requires |times| == |Pieces(ts[id].text, offset, limit)| && InTime(ts[id].expires, times)
    ensures ReadAll(ts, sessionId, id, offset, times, limit)
            == Some(Pieces(ts[id].text, offset, limit))
    decreases |times|
  {
    hide PieceEnd;
    var t := ts[id].text;
    var end := PieceEnd(t, offset, limit);
    var next := AfterChunk(ts, sessionId, id, offset, times[0], limit);
    if end == |t| {
      assert Pieces(t, end, limit) == [] && times[1..] == [];
      assert ReadAll(next, sessionId, id, end, times[1..], limit) == Some([]);
    } else {
      ReaderGetsEveryPiece(next, sessionId, id, end, times[1..], limit);
    }
  }

  /** Reading a fresh transfer in time returns the serialized sync exactly, and from a
      limit of 8 on in pieces that fit and are well formed. */
  lemma TransferIsLossless(ts: map<string, Transfer>, sessionId: string, id: string,
                           times: seq<nat>, limit: nat)
    requires id in ts && ts[id].sessionId == sessionId
    requires |times| == |Pieces(ts[id].text, 0, limit)| && InTime(ts[id].expires, times)
    ensures var r := ReadAll(ts, sessionId, id, 0, times, limit);
            && r.Some? && Joined(r.value) == ts[id].text
            && (WellFormed(ts[id].text) && 8 <= limit ==>
                  forall p :: p in r.value ==> WellFormed(p) && EncodedBytes(p) <= limit)
  {
    if ts[id].text != [] { ReaderGetsEveryPiece(ts, sessionId, id, 0, times, limit); }
    PiecesRebuildTheText(ts[id].text, 0, limit);
  }
}
