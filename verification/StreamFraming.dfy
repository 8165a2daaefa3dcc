/** `host/child-backend.ts`: provider output is cut into lines, and an OpenCode
    event stream into events, whatever the sizes of the chunks it arrives in. */
module StreamFraming {
  import opened Wrappers

  const MAX_FRAME: nat := 8 * 1024 * 1024

  // ------------------------------------------------------------------ lines

  function FirstLf(t: string): (i: nat)
    ensures i <= |t| && (i < |t| ==> t[i] == '\n')
    ensures forall k :: 0 <= k < i ==> t[k] != '\n'
  {
    if t == "" || t[0] == '\n' then 0 else 1 + FirstLf(t[1..])
  }

  /** The raw lines that a line feed has ended. */
  function Lines(t: string): seq<string>
    decreases |t|
  {
    var i := FirstLf(t);
    if i == |t| then [] else [t[..i]] + Lines(t[i + 1..])
  }

  /** What follows the last line feed. */
  function Tail(t: string): string
    decreases |t|
  {
    var i := FirstLf(t);
    if i == |t| then t else Tail(t[i + 1..])
  }

  /** Drops one carriage return at the end. */
  function Chomp(line: string): string {
    if line != "" && line[|line| - 1] == '\r' then line[..|line| - 1] else line
  }

  function Chomped(lines: seq<string>): seq<string> {
    if lines == [] then [] else [Chomp(lines[0])] + Chomped(lines[1..])
  }

  function Concat(chunks: seq<string>): string {
    if chunks == [] then "" else chunks[0] + Concat(chunks[1..])
  }

  /** The text that has these lines and this unfinished tail. */
  function Glued(lines: seq<string>, tail: string): string {
    if lines == [] then tail else lines[0] + ("\n" + Glued(lines[1..], tail))
  }

  predicate NoLf(t: string) { forall c :: c in t ==> c != '\n' }

  lemma FirstLfIs(t: string, i: nat)
    requires i <= |t| && NoLf(t[..i]) && (i < |t| ==> t[i] == '\n')
    ensures FirstLf(t) == i
  {
    forall k | 0 <= k < i ensures t[k] != '\n' { assert t[..i][k] in t[..i]; }
  }

  lemma LinesStep(t: string, i: nat)
    requires i < |t| && i == FirstLf(t)
    ensures Lines(t) == [t[..i]] + Lines(t[i + 1..]) && Tail(t) == Tail(t[i + 1..])
  {
    hide FirstLf;
  }

  lemma NoLinesInTail(t: string)
    requires NoLf(t)
    ensures Lines(t) == [] && Tail(t) == t
  {
    assert t[..|t|] == t;
    FirstLfIs(t, |t|);
  }

  lemma GluedCons(line: string, lines: seq<string>, tail: string)
    ensures Glued([line] + lines, tail) == line + ("\n" + Glued(lines, tail))
  {
    assert ([line] + lines)[1..] == lines;
  }

  /** `Lines` and `Tail` are the one way to write a text as ended lines and a tail. */
  lemma {:induction false} LinesAreTheSplit(t: string)
    ensures Glued(Lines(t), Tail(t)) == t
    ensures NoLf(Tail(t)) && forall l :: l in Lines(t) ==> NoLf(l)
    decreases |t|
  {
    hide FirstLf, Lines, Tail;
    var i := FirstLf(t);
    if i == |t| {
      NoLinesInTail(t);
    } else {
      LinesStep(t, i);
      LinesAreTheSplit(t[i + 1..]);
      hide Glued;
      GluedCons(t[..i], Lines(t[i + 1..]), Tail(t[i + 1..]));
      assert t == t[..i] + ("\n" + t[i + 1..]);
    }
  }

  lemma {:induction false} SplitIsUnique(lines: seq<string>, tail: string)
    requires NoLf(tail) && forall l :: l in lines ==> NoLf(l)
    ensures Lines(Glued(lines, tail)) == lines && Tail(Glued(lines, tail)) == tail
    decreases |lines|
  {
    var t := Glued(lines, tail);
    if lines == [] {
      assert t[..|t|] == tail;
      FirstLfIs(t, |t|);
    } else {
      var rest := Glued(lines[1..], tail);
      assert lines[0] in lines && t[..|lines[0]|] == lines[0];
      FirstLfIs(t, |lines[0]|);
      assert t[|lines[0]| + 1..] == rest;
      SplitIsUnique(lines[1..], tail);
    }
  }

  /** A boundary between chunks can be moved past the finished lines. */
  lemma {:induction false} LinesOfConcat(a: string, b: string)
    ensures Lines(a + b) == Lines(a) + Lines(Tail(a) + b)
    ensures Tail(a + b) == Tail(Tail(a) + b)
    decreases |a|
  {
    hide FirstLf, Lines, Tail;
    var i := FirstLf(a);
    if i == |a| {
      NoLinesInTail(a);
      assert [] + Lines(a + b) == Lines(a + b);
    } else {
      var rest := a[i + 1..];
      assert (a + b)[..i] == a[..i] && (a + b)[i + 1..] == rest + b;
      FirstLfIs(a + b, i);
      LinesStep(a + b, i);
      LinesStep(a, i);
      LinesOfConcat(rest, b);
      assert [a[..i]] + (Lines(rest) + Lines(Tail(rest) + b))
          == ([a[..i]] + Lines(rest)) + Lines(Tail(rest) + b);
    }
  }

  lemma {:induction false} ChompedConcat(a: seq<string>, b: seq<string>)
    ensures Chomped(a + b) == Chomped(a) + Chomped(b)
    decreases |a|
  {
    if a == [] {
      assert a + b == b;
    } else {
      assert (a + b)[1..] == a[1..] + b;
      ChompedConcat(a[1..], b);
    }
  }

  // --------------------------------------------------- stdout / stderr lines

  datatype Fed = Fed(lines: seq<string>, buffer: string, kill: bool)

  /** One `data` event, with the buffer already extended. */
  function Drain(t: string): Fed
    decreases |t|
  {
    var i := FirstLf(t);
    if i == |t| then (if |t| > MAX_FRAME then Fed([], "", true) else Fed([], t, false))
    else if |Chomp(t[..i])| > MAX_FRAME then Fed([], t[i + 1..], true)
    else
      var rest := Drain(t[i + 1..]);
      Fed([Chomp(t[..i])] + rest.lines, rest.buffer, rest.kill)
  }

  function FeedAll(buffer: string, chunks: seq<string>): Fed
    decreases |chunks|
  {
    if chunks == [] then Fed([], buffer, false)
    else
      var first := Drain(buffer + chunks[0]);
      var rest := FeedAll(first.buffer, chunks[1..]);
      Fed(first.lines + rest.lines, rest.buffer, first.kill || rest.kill)
  }

  lemma DrainStep(t: string, i: nat)
    requires i == FirstLf(t)
    ensures Drain(t) ==
            if i == |t| then (if |t| > MAX_FRAME then Fed([], "", true) else Fed([], t, false))
            else if |Chomp(t[..i])| > MAX_FRAME then Fed([], t[i + 1..], true)
            else var rest := Drain(t[i + 1..]);
                 Fed([Chomp(t[..i])] + rest.lines, rest.buffer, rest.kill)
  {
    hide FirstLf, Chomp;
  }

  function After(lines: seq<string>, fed: Fed): Fed {
    fed.(lines := lines + fed.lines)
  }

  lemma AfterOne(lines: seq<string>, line: string, fed: Fed)
    ensures After(lines, Fed([line] + fed.lines, fed.buffer, fed.kill)) == After(lines + [line], fed)
    ensures After([], fed) == fed && lines + [] == lines
  {
    assert [] + fed.lines == fed.lines;
    assert lines + ([line] + fed.lines) == (lines + [line]) + fed.lines;
  }

  class LineReader {
    var buffer: string
    /** The child was told to stop because of an oversized frame. */
    var killed: bool

    constructor ()
      ensures buffer == "" && !killed
    {
      buffer, killed := "", false;
    }

    method Data(data: string) returns (lines: seq<string>)
      modifies this
      ensures Fed(lines, buffer, killed)
              == var fed := Drain(old(buffer) + data); fed.(kill := old(killed) || fed.kill)
    {
      hide FirstLf, Drain, Chomp;
      buffer := buffer + data;
      lines := [];
      ghost var text := buffer;
      AfterOne([], "", Drain(text));
      var index := FirstLf(buffer);
      while index < |buffer|
        invariant index == FirstLf(buffer) && killed == old(killed)
        invariant Drain(text) == After(lines, Drain(buffer))
        decreases |buffer|
      {
        DrainStep(buffer, index);
        var line := Chomp(buffer[..index]);
        buffer := buffer[index + 1..];
        AfterOne(lines, line, Drain(buffer));
        if |line| > MAX_FRAME {
          killed := true;
          return;
        }
        lines := lines + [line];
        index := FirstLf(buffer);
      }
      DrainStep(buffer, index);
      AfterOne(lines, "", Fed([], "", true));
      if |buffer| > MAX_FRAME {
        buffer := "";
        killed := true;
      }
    }

    /** The stream ended: an unfinished line is still a line. */
    method End() returns (last: Option<string>)
      ensures last == if buffer == "" then None else Some(buffer)
    {
      last := if buffer != "" then Some(buffer) else None;
    }
  }

  /** No raw line, finished or not, is longer than a frame may be. */
  ghost predicate Bounded(t: string) {
    |Tail(t)| <= MAX_FRAME && forall l :: l in Lines(t) ==> |l| <= MAX_FRAME
  }

  lemma {:induction false} DrainIsSplit(t: string)
    requires Bounded(t)
    ensures Drain(t) == Fed(Chomped(Lines(t)), Tail(t), false)
    decreases |t|
  {
    var i := FirstLf(t);
    if i < |t| {
      var lines := Lines(t);
      assert lines[0] == t[..i] && lines[0] in lines && lines[1..] == Lines(t[i + 1..]);
      assert forall l :: l in lines[1..] ==> l in lines;
      DrainIsSplit(t[i + 1..]);
    }
  }

  /** A bounded text has only bounded beginnings. */
  lemma {:induction false} BoundedPrefix(a: string, b: string)
    requires Bounded(a + b)
    ensures Bounded(a) && Bounded(Tail(a) + b)
  {
    LinesOfConcat(a, b);
    LinesAreTheSplit(a);
    assert forall l :: l in Lines(a) ==> l in Lines(a + b);
    assert forall l :: l in Lines(Tail(a) + b) ==> l in Lines(a + b);
    TailIsInAFrame(Tail(a), b);
  }

  lemma TailIsInAFrame(tail: string, b: string)
    requires NoLf(tail) && Bounded(tail + b)
    ensures |tail| <= MAX_FRAME
  {
    var t := tail + b;
    var i := FirstLf(t);
    forall k | 0 <= k < |tail| ensures t[k] != '\n' { assert tail[k] in tail; }
    assert |tail| <= i;
    if i < |t| { assert Lines(t)[0] == t[..i]; }
  }

  /** However a bounded stream is cut into chunks, the lines and the unfinished
      rest are those of the whole text, and the child is never told to stop. */
  lemma {:induction false} LinesIgnoreChunks(buffer: string, chunks: seq<string>)
    requires NoLf(buffer) && Bounded(buffer + Concat(chunks))
    ensures var t := buffer + Concat(chunks);
            FeedAll(buffer, chunks) == Fed(Chomped(Lines(t)), Tail(t), false)
    decreases |chunks|
  {
    if chunks == [] {
      assert buffer + "" == buffer;
      NoLinesInTail(buffer);
    } else {
      hide Bounded, Chomped;
      var first, rest := buffer + chunks[0], Concat(chunks[1..]);
      assert buffer + Concat(chunks) == first + rest;
      BoundedPrefix(first, rest);
      DrainIsSplit(first);
      LinesAreTheSplit(first);
      LinesIgnoreChunks(Tail(first), chunks[1..]);
      LinesOfConcat(first, rest);
      ChompedConcat(Lines(first), Lines(Tail(first) + rest));
    }
  }

  lemma SomeCutStops(t: string) returns (chunks: seq<string>)
    requires !Bounded(t)
    ensures Concat(chunks) == t && FeedAll("", chunks).kill
  {
    var n := OversizedPrefix(t);
    hide Drain, Bounded, Tail;
    DrainStops(t[..n]);
    chunks := [t[..n], t[n..]];
    assert chunks[1..] == [t[n..]] && chunks[1..][1..] == [];
    assert Concat(chunks[1..]) == t[n..] + "" == t[n..];
    assert Concat(chunks) == t[..n] + t[n..] == t;
    assert "" + chunks[0] == t[..n];
  }

  /** The bound is exact: a stream is safe from being stopped under every way of
      cutting it exactly when none of its raw lines exceeds a frame. */
  lemma NeverStoppedIffBounded(t: string)
    ensures Bounded(t) <==>
            forall chunks :: Concat(chunks) == t ==> !FeedAll("", chunks).kill
  {
    if Bounded(t) {
      forall chunks | Concat(chunks) == t ensures !FeedAll("", chunks).kill {
        assert "" + Concat(chunks) == t;
        LinesIgnoreChunks("", chunks);
      }
    } else {
      hide Bounded, FeedAll, Concat;
      var chunks := SomeCutStops(t);
      assert Concat(chunks) == t && FeedAll("", chunks).kill;
    }
  }

  /** How much of an unbounded text leaves a tail one longer than a frame. */
  lemma {:induction false} OversizedPrefix(t: string) returns (n: nat)
    requires !Bounded(t)
    ensures n <= |t| && |Tail(t[..n])| > MAX_FRAME
    decreases |t|
  {
    var i := FirstLf(t);
    if i > MAX_FRAME || i == |t| {
      n := i;
      assert NoLf(t[..n]);
      NoLinesInTail(t[..n]);
      if i == |t| { assert t[..n] == t; }
    } else {
      var rest := t[i + 1..];
      assert Lines(t) == [t[..i]] + Lines(rest);
      assert forall l :: l in Lines(t) ==> l == t[..i] || l in Lines(rest);
      var m := OversizedPrefix(rest);
      n := i + 1 + m;
      assert t[..n][..i] == t[..i] && t[..n][i + 1..] == rest[..m];
      assert NoLf(t[..n][..i]);
      FirstLfIs(t[..n], i);
    }
  }

  lemma {:induction false} DrainStops(t: string)
    requires |Tail(t)| > MAX_FRAME
    ensures Drain(t).kill
    decreases |t|
  {
    var i := FirstLf(t);
    if i < |t| { DrainStops(t[i + 1..]); }
  }

  // ------------------------------------------------------ server-sent events

  /** A data field's value, as section 9.2.6 of the HTML Living Standard reads it:
      one leading space is dropped. */
  function DataField(line: string): Option<string> {
    if |line| >= 5 && line[..5] == "data:"
    then Some(if |line| > 5 && line[5] == ' ' then line[6..] else line[5..])
    else None
  }

  /** What one line adds to the data of its block. */
  function NewData(line: string): seq<string> {
    match DataField(line) case Some(d) => [d] case None => []
  }

  function DataFields(block: seq<string>): seq<string> {
    if block == [] then [] else NewData(block[0]) + DataFields(block[1..])
  }

  function JoinLf(parts: seq<string>): string {
    if parts == [] then ""
    else if |parts| == 1 then parts[0]
    else parts[0] + "\n" + JoinLf(parts[1..])
  }

  function FirstBlank(lines: seq<string>): (i: nat)
    ensures i <= |lines| && (i < |lines| ==> lines[i] == "")
    ensures forall k :: 0 <= k < i ==> lines[k] != ""
  {
    if lines == [] || lines[0] == "" then 0 else 1 + FirstBlank(lines[1..])
  }

  function Dispatch(data: seq<string>): seq<string> {
    if data == [] then [] else [JoinLf(data)]
  }

  /** The events of a list of lines: each block that a blank line ends gives the
      join of its data fields, if it has any. An unended block gives nothing. */
  function EventsOf(lines: seq<string>): seq<string>
    decreases |lines|
  {
    var i := FirstBlank(lines);
    if i == |lines| then []
    else Dispatch(DataFields(lines[..i])) + EventsOf(lines[i + 1..])
  }

  datatype Sse = Sse(buffer: string, data: seq<string>, dataLength: nat, failed: bool)

  /** Reads the ended lines of `s.buffer` one at a time. */
  function Read(s: Sse): (seq<string>, Sse)
    decreases |s.buffer|
  {
    var i := FirstLf(s.buffer);
    if i == |s.buffer| then ([], s)
    else
      var line, rest := Chomp(s.buffer[..i]), s.(buffer := s.buffer[i + 1..]);
      if line == "" then
        var (more, s') := Read(rest.(data := [], dataLength := 0));
        (Dispatch(s.data) + more, s')
      else match DataField(line)
        case None => Read(rest)
        case Some(piece) =>
          var length := s.dataLength + |piece|;
          if length > MAX_FRAME then ([], rest.(dataLength := length, failed := true))
          else Read(rest.(data := s.data + [piece], dataLength := length))
  }

  function Receive(s: Sse, chunk: string): (seq<string>, Sse) {
    if s.failed then ([], s)
    else if |s.buffer + chunk| > MAX_FRAME then ([], s.(buffer := s.buffer + chunk, failed := true))
    else Read(s.(buffer := s.buffer + chunk))
  }

  function ReceiveAll(s: Sse, chunks: seq<string>): (seq<string>, Sse)
    decreases |chunks|
  {
    if chunks == [] then ([], s)
    else
      var (events, s') := Receive(s, chunks[0]);
      var (more, s'') := ReceiveAll(s', chunks[1..]);
      (events + more, s'')
  }

  class SseReader {
    var buffer: string
    var data: seq<string>
    var dataLength: nat
    /** The stream was given up because a frame was too large. */
    var failed: bool

    ghost function State(): Sse
      reads this
    {
      Sse(buffer, data, dataLength, failed)
    }

    constructor ()
      ensures State() == Sse("", [], 0, false)
    {
      buffer, data, dataLength, failed := "", [], 0, false;
    }

    /** One decoded chunk of the response body; returns the events it completes. */
    method Chunk(chunk: string) returns (events: seq<string>)
      modifies this
      ensures (events, State()) == Receive(old(State()), chunk)
    {
      hide FirstLf, JoinLf, Read, Chomp;
      events := [];
      if failed {
        return;
      }
      buffer := buffer + chunk;
      if |buffer| > MAX_FRAME {
        failed := true;
        return;
      }
      ghost var start := State();
      Nothing(Read(start));
      var index := FirstLf(buffer);
      while index < |buffer|
        invariant index == FirstLf(buffer) && !failed
        invariant Read(start) == Following(events, Read(State()))
        decreases |buffer|
      {
        ghost var was, before := State(), events;
        ReadStep(was, index);
        var line := Chomp(buffer[..index]);
        buffer := buffer[index + 1..];
        if line == "" {
          if data != [] {
            events := events + [JoinLf(data)];
          }
          data := [];
          dataLength := 0;
          FollowingTwice(before, Dispatch(was.data), Read(State()));
        } else if |line| >= 5 && line[..5] == "data:" {
          var piece := if |line| > 5 && line[5] == ' ' then line[6..] else line[5..];
          dataLength := dataLength + |piece|;
          if dataLength > MAX_FRAME {
            failed := true;
            assert events + [] == events;
            return;
          }
          data := data + [piece];
        }
        index := FirstLf(buffer);
      }
      ReadStep(State(), index);
      assert events + [] == events;
    }
  }

  function Following(events: seq<string>, r: (seq<string>, Sse)): (seq<string>, Sse) {
    (events + r.0, r.1)
  }

  lemma Nothing(r: (seq<string>, Sse))
    ensures Following([], r) == r
  {
    assert [] + r.0 == r.0;
  }

  lemma FollowingTwice(a: seq<string>, b: seq<string>, r: (seq<string>, Sse))
    ensures Following(a, Following(b, r)) == Following(a + b, r)
    ensures a + [] == a
  {
    assert (a + b) + r.0 == a + (b + r.0);
  }

  lemma ReadStep(s: Sse, i: nat)
    requires i == FirstLf(s.buffer)
    ensures Read(s) ==
            if i == |s.buffer| then ([], s)
            else
              var line, rest := Chomp(s.buffer[..i]), s.(buffer := s.buffer[i + 1..]);
              if line == "" then Following(Dispatch(s.data), Read(rest.(data := [], dataLength := 0)))
              else match DataField(line)
                case None => Read(rest)
                case Some(piece) =>
                  var length := s.dataLength + |piece|;
                  if length > MAX_FRAME then ([], rest.(dataLength := length, failed := true))
                  else Read(rest.(data := s.data + [piece], dataLength := length))
  {
    hide FirstLf, Chomp, DataField, Dispatch;
  }

  /** The events of `lines`, read one at a time, with `data` already in the block. */
  function EventsAfter(data: seq<string>, lines: seq<string>): seq<string>
    decreases |lines|
  {
    if lines == [] then []
    else if lines[0] == "" then Dispatch(data) + EventsAfter([], lines[1..])
    else EventsAfter(data + NewData(lines[0]), lines[1..])
  }

  /** The data of the block that `lines` leave unended. */
  function OpenBlock(data: seq<string>, lines: seq<string>): seq<string>
    decreases |lines|
  {
    if lines == [] then data
    else if lines[0] == "" then OpenBlock([], lines[1..])
    else OpenBlock(data + NewData(lines[0]), lines[1..])
  }

  function ByBlocks(data: seq<string>, lines: seq<string>): seq<string> {
    var i := FirstBlank(lines);
    if i == |lines| then []
    else Dispatch(data + DataFields(lines[..i])) + EventsOf(lines[i + 1..])
  }

  lemma ByBlocksBlank(data: seq<string>, lines: seq<string>)
    requires lines != [] && lines[0] == ""
    ensures ByBlocks(data, lines) == Dispatch(data) + ByBlocks([], lines[1..])
  {
    hide NewData, Dispatch;
    var rest := lines[1..];
    assert data + DataFields(lines[..0]) == data;
    var i := FirstBlank(rest);
    if i < |rest| { assert [] + DataFields(rest[..i]) == DataFields(rest[..i]); }
  }

  lemma ByBlocksLine(data: seq<string>, lines: seq<string>)
    requires lines != [] && lines[0] != ""
    ensures ByBlocks(data, lines) == ByBlocks(data + NewData(lines[0]), lines[1..])
  {
    hide NewData, Dispatch, EventsOf;
    var rest := lines[1..];
    var i := FirstBlank(rest);
    if i < |rest| {
      assert lines[..i + 1][0] == lines[0] && lines[..i + 1][1..] == rest[..i];
      assert lines[i + 2..] == rest[i + 1..];
      assert data + (NewData(lines[0]) + DataFields(rest[..i]))
          == (data + NewData(lines[0])) + DataFields(rest[..i]);
    }
  }

  /** Reading line by line delivers block by block. */
  lemma {:induction false} EventsAfterIsByBlocks(data: seq<string>, lines: seq<string>)
    ensures EventsAfter(data, lines) == ByBlocks(data, lines)
    decreases |lines|
  {
    if lines != [] {
      hide NewData, Dispatch, ByBlocks;
      if lines[0] == "" {
        ByBlocksBlank(data, lines);
        EventsAfterIsByBlocks([], lines[1..]);
      } else {
        ByBlocksLine(data, lines);
        EventsAfterIsByBlocks(data + NewData(lines[0]), lines[1..]);
      }
    }
  }

  lemma EventsAfterNothing(lines: seq<string>)
    ensures EventsAfter([], lines) == EventsOf(lines)
  {
    EventsAfterIsByBlocks([], lines);
    var i := FirstBlank(lines);
    if i < |lines| { assert [] + DataFields(lines[..i]) == DataFields(lines[..i]); }
  }

  /** Reading what is buffered: the events are those of its ended lines, unless the
      stream fails, and then they are the first of them. */
  lemma {:induction false} ReadIsParse(s: Sse)
    requires !s.failed
    ensures var (events, s') := Read(s);
            var lines := Chomped(Lines(s.buffer));
            && events <= EventsAfter(s.data, lines)
            && (!s'.failed ==>
                 && events == EventsAfter(s.data, lines)
                 && s'.data == OpenBlock(s.data, lines)
                 && s'.buffer == Tail(s.buffer))
    decreases |s.buffer|
  {
    var i := FirstLf(s.buffer);
    hide FirstLf, DataField, Dispatch, Chomp, Read, Lines, Tail, Chomped, EventsAfter, OpenBlock;
    ReadStep(s, i);
    if i == |s.buffer| {
      NoLinesInTail(s.buffer);
      NoLinesNoEvents(s.data);
    } else {
      var line, rest := Chomp(s.buffer[..i]), s.(buffer := s.buffer[i + 1..]);
      LinesStep(s.buffer, i);
      ChompedCons(s.buffer[..i], Lines(rest.buffer));
      var lines := Chomped(Lines(rest.buffer));
      EventsAfterCons(s.data, line, lines);
      if line == "" {
        var next := rest.(data := [], dataLength := 0);
        ReadIsParse(next);
        StartsTheSame(Dispatch(s.data), Read(next).0, EventsAfter([], lines));
      } else {
        match DataField(line)
        case None =>
          assert s.data + [] == s.data;
          ReadIsParse(rest);
        case Some(piece) =>
          var length := s.dataLength + |piece|;
          if length <= MAX_FRAME {
            ReadIsParse(rest.(data := s.data + [piece], dataLength := length));
          }
      }
    }
  }

  lemma StartsTheSame<T>(a: seq<T>, b: seq<T>, c: seq<T>)
    ensures b <= c ==> a + b <= a + c
  {
  }

  lemma NoLinesNoEvents(data: seq<string>)
    ensures EventsAfter(data, Chomped([])) == [] && OpenBlock(data, Chomped([])) == data
  {
  }

  lemma EventsAfterCons(data: seq<string>, line: string, lines: seq<string>)
    ensures EventsAfter(data, [line] + lines) ==
            if line == "" then Dispatch(data) + EventsAfter([], lines)
            else EventsAfter(data + NewData(line), lines)
    ensures OpenBlock(data, [line] + lines) ==
            if line == "" then OpenBlock([], lines) else OpenBlock(data + NewData(line), lines)
  {
    hide NewData, Dispatch;
    assert ([line] + lines)[1..] == lines;
  }

  lemma ChompedCons(line: string, lines: seq<string>)
    ensures Chomped([line] + lines) == [Chomp(line)] + Chomped(lines)
  {
    assert ([line] + lines)[1..] == lines;
  }

  lemma {:induction false} EventsAfterConcat(data: seq<string>, a: seq<string>, b: seq<string>)
    ensures EventsAfter(data, a + b) == EventsAfter(data, a) + EventsAfter(OpenBlock(data, a), b)
    decreases |a|
  {
    hide DataField, JoinLf, NewData, Dispatch;
    if a == [] {
      assert a + b == b;
      assert [] + EventsAfter(data, b) == EventsAfter(data, b);
    } else {
      assert (a + b)[1..] == a[1..] + b;
      if a[0] == "" {
        EventsAfterConcat([], a[1..], b);
        var x, y := EventsAfter([], a[1..]), EventsAfter(OpenBlock([], a[1..]), b);
        assert Dispatch(data) + (x + y) == (Dispatch(data) + x) + y;
      } else {
        EventsAfterConcat(data + NewData(a[0]), a[1..], b);
      }
    }
  }

  /** From any state between chunks. */
  lemma {:induction false} EventsIgnoreChunksFrom(s: Sse, chunks: seq<string>)
    requires NoLf(s.buffer) && !s.failed
    ensures var (events, s') := ReceiveAll(s, chunks);
            var expected := EventsAfter(s.data, Chomped(Lines(s.buffer + Concat(chunks))));
            events <= expected && (!s'.failed ==> events == expected)
    decreases |chunks|
  {
    hide EventsAfter, OpenBlock, Chomped;
    if chunks == [] {
      assert s.buffer + "" == s.buffer;
      NoLinesInTail(s.buffer);
      NoEventsInNoLines(s.data);
    } else {
      var first, rest := s.buffer + chunks[0], Concat(chunks[1..]);
      assert s.buffer + Concat(chunks) == first + rest;
      LinesOfConcat(first, rest);
      ChompedConcat(Lines(first), Lines(Tail(first) + rest));
      EventsAfterConcat(s.data, Chomped(Lines(first)), Chomped(Lines(Tail(first) + rest)));
      ReadIsParse(s.(buffer := first));
      var (events, s') := Receive(s, chunks[0]);
      if s'.failed {
        FailureIsFinal(s', chunks[1..]);
      } else {
        LinesAreTheSplit(first);
        EventsIgnoreChunksFrom(s', chunks[1..]);
      }
    }
  }

  lemma NoEventsInNoLines(data: seq<string>)
    ensures EventsAfter(data, Chomped([])) == []
  {
  }

  lemma {:induction false} FailureIsFinal(s: Sse, chunks: seq<string>)
    requires s.failed
    ensures ReceiveAll(s, chunks) == ([], s)
    decreases |chunks|
  {
    if chunks != [] {
      FailureIsFinal(s, chunks[1..]);
      var rest := ReceiveAll(s, chunks[1..]);
      assert Receive(s, chunks[0]) == ([], s);
      assert ReceiveAll(s, chunks) == ([] + rest.0, rest.1);
      assert [] + rest.0 == [];
    }
  }

  /** Every way of cutting a stream into chunks gives the events of the whole text;
      a stream that fails on a size limit has given the first of them. */
  lemma EventsIgnoreChunks(chunks: seq<string>)
    ensures var (events, s) := ReceiveAll(Sse("", [], 0, false), chunks);
            var expected := EventsOf(Chomped(Lines(Concat(chunks))));
            events <= expected && (!s.failed ==> events == expected)
  {
    assert "" + Concat(chunks) == Concat(chunks);
    EventsIgnoreChunksFrom(Sse("", [], 0, false), chunks);
    EventsAfterNothing(Chomped(Lines(Concat(chunks))));
  }

  // ------------------------------------------------- when no limit is reached

  lemma DataFieldIsShorter(line: string)
    ensures DataField(line).Some? ==> |DataField(line).value| < |line|
  {
  }

  lemma {:induction false} ReadWithinLimits(s: Sse)
    requires !s.failed && s.dataLength + |s.buffer| <= MAX_FRAME
    ensures var (_, s') := Read(s);
            !s'.failed && s'.dataLength + |s'.buffer| <= s.dataLength + |s.buffer|
    decreases |s.buffer|
  {
    var i := FirstLf(s.buffer);
    hide FirstLf, Read, DataField, Dispatch;
    ReadStep(s, i);
    if i < |s.buffer| {
      var line, rest := Chomp(s.buffer[..i]), s.(buffer := s.buffer[i + 1..]);
      DataFieldIsShorter(line);
      if line == "" {
        ReadWithinLimits(rest.(data := [], dataLength := 0));
      } else {
        match DataField(line)
        case None => ReadWithinLimits(rest);
        case Some(piece) =>
          ReadWithinLimits(rest.(data := s.data + [piece], dataLength := s.dataLength + |piece|));
      }
    }
  }

  /** A stream no longer than what the limit leaves never fails, however it is cut. */
  lemma {:induction false} ShortStreamsNeverFail(s: Sse, chunks: seq<string>)
    requires !s.failed && s.dataLength + |s.buffer| + |Concat(chunks)| <= MAX_FRAME
    ensures !ReceiveAll(s, chunks).1.failed
    decreases |chunks|
  {
    if chunks != [] {
      ReadWithinLimits(s.(buffer := s.buffer + chunks[0]));
      ShortStreamsNeverFail(Receive(s, chunks[0]).1, chunks[1..]);
    }
  }

  /** The bound is exact: a stream is safe from failing under every way of cutting it
      exactly when the whole of it fits one frame, because it may come in one piece. */
  lemma NeverFailsIffShort(t: string)
    ensures |t| <= MAX_FRAME <==>
            forall chunks :: Concat(chunks) == t ==> !ReceiveAll(Sse("", [], 0, false), chunks).1.failed
  {
    var start := Sse("", [], 0, false);
    if |t| <= MAX_FRAME {
      forall chunks | Concat(chunks) == t ensures !ReceiveAll(start, chunks).1.failed {
        ShortStreamsNeverFail(start, chunks);
      }
    } else {
      assert Concat([t]) == t + Concat([]) == t;
      var failed := Receive(start, t).1;
      assert failed.failed;
      assert ReceiveAll(start, [t]).1 == ReceiveAll(failed, []).1;
    }
  }

  /** An event whose closing blank line never came is not delivered. */
  lemma {:induction false} UnfinishedEventIsDiscarded(lines: seq<string>, open: seq<string>)
    requires lines == [] || lines[|lines| - 1] == ""
    requires forall l :: l in open ==> l != ""
    ensures EventsOf(lines + open) == EventsOf(lines)
    decreases |lines|
  {
    hide DataFields, Dispatch;
    if lines == [] {
      assert lines + open == open;
      UnendedIsNoEvent(open);
    } else {
      var i, all := FirstBlank(lines), lines + open;
      assert all[i] == lines[i];
      FirstBlankIs(all, i);
      assert all[..i] == lines[..i] && all[i + 1..] == lines[i + 1..] + open;
      LastBlankStays(lines, i);
      UnfinishedEventIsDiscarded(lines[i + 1..], open);
    }
  }

  lemma UnendedIsNoEvent(open: seq<string>)
    requires forall l :: l in open ==> l != ""
    ensures EventsOf(open) == []
  {
    forall k | 0 <= k < |open| ensures open[k] != "" { assert open[k] in open; }
    assert FirstBlank(open) == |open|;
  }

  lemma LastBlankStays(lines: seq<string>, i: nat)
    requires i < |lines| && lines[|lines| - 1] == ""
    ensures lines[i + 1..] == [] || lines[i + 1..][|lines[i + 1..]| - 1] == ""
  {
  }

  lemma FirstBlankIs(lines: seq<string>, i: nat)
    requires i < |lines| && lines[i] == "" && forall k :: 0 <= k < i ==> lines[k] != ""
    ensures FirstBlank(lines) == i
  {
  }
}
