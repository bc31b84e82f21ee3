/** The reader of the newline-delimited pose stream (stream_client.py).  A connection is a
    script of what its receive calls return. */
module StreamClient {
  import opened Prelude
  import opened LineSplit

  /** What one receive call can do: return bytes, none of them at the end of the stream, find
      nothing queued, or fail. */
  datatype Event = Received(chunk: Bytes) | WouldBlock | Failure

  /** The bytes a script delivers before the stream ends or fails. */
  function Delivered(script: seq<Event>): Bytes {
    if script == [] then []
    else
      match script[0]
      case WouldBlock => Delivered(script[1..])
      case Failure => []
      case Received(chunk) => if chunk == [] then [] else chunk + Delivered(script[1..])
  }

  /* ---- wakes ---- */

  /** A blocking receive waits while nothing is queued. */
  function Waited(script: seq<Event>): (r: seq<Event>)
    ensures |r| <= |script| && (r != [] ==> !r[0].WouldBlock?)
  {
    if script != [] && script[0].WouldBlock? then Waited(script[1..]) else script
  }

  /** What is taken without waiting: every chunk up to the point where nothing is queued, the
      stream ends, or the call fails; and what remains of the script behind that point. */
  datatype Gathered = Gathered(bytes: Bytes, ended: bool, rest: seq<Event>)

  function Queued(script: seq<Event>): (r: Gathered)
    ensures |r.rest| <= |script|
  {
    if script == [] then Gathered([], true, [])
    else
      match script[0]
      case WouldBlock => Gathered([], false, script[1..])
      case Failure => Gathered([], true, script[1..])
      case Received(chunk) =>
        if chunk == [] then Gathered([], true, script[1..])
        else
          var more := Queued(script[1..]);
          more.(bytes := chunk + more.bytes)
  }

  /** One wake: the first bytes to arrive, and everything that is queued behind them. */
  function Wake(script: seq<Event>): (r: Option<Gathered>)
    ensures r.Some? ==> |r.value.rest| < |script|
  {
    var arrived := Waited(script);
    if arrived == [] || arrived[0].Failure? || arrived[0].chunk == [] then None
    else
      var more := Queued(arrived[1..]);
      Some(more.(bytes := arrived[0].chunk + more.bytes))
  }

  /** The wakes of a connection, in order. */
  function Wakes(script: seq<Event>): seq<Bytes>
    decreases |script|
  {
    var wake := Wake(script);
    if wake.None? then [] else [wake.value.bytes] + if wake.value.ended then [] else Wakes(wake.value.rest)
  }

  /** Whether the last wake runs into the end of the stream. */
  predicate EndsInWake(script: seq<Event>)
    decreases |script|
  {
    var wake := Wake(script);
    wake.Some? && (wake.value.ended || EndsInWake(wake.value.rest))
  }

  lemma QueuedNext(script: seq<Event>, buffer: Bytes)
    ensures var q := Queued(script);
      if script == [] || script[0].WouldBlock? || script[0].Failure? || script[0].chunk == [] then
        && q.ended == (script == [] || !script[0].WouldBlock?)
        && q.rest == (if script == [] then [] else script[1..])
        && buffer + q.bytes == buffer
      else
        var more := Queued(script[1..]);
        buffer + q.bytes == buffer + script[0].chunk + more.bytes && q.ended == more.ended && q.rest == more.rest
  {}

  /** The first bytes that arrive are the first event that is not a wait. */
  lemma {:induction false} WaitedExactly(script: seq<Event>) returns (n: nat)
    ensures n <= |script| && Waited(script) == script[n..] && forall i | 0 <= i < n :: script[i] == WouldBlock
    ensures n < |script| ==> script[n] != WouldBlock
  {
    if script != [] && script[0].WouldBlock? {
      n := WaitedExactly(script[1..]);
      n := n + 1;
    } else {
      n := 0;
    }
  }

  /** What is queued: all the chunks up to the first receive that would block, fails, or finds the
      end of the stream; that one is used up, and a block is the only one the stream goes on
      after. */
  lemma {:induction false} QueuedExactly(script: seq<Event>) returns (n: nat)
    ensures n <= |script| && forall i | 0 <= i < n :: script[i].Received? && script[i].chunk != []
    ensures n < |script| ==> script[n] == WouldBlock || script[n] == Failure || script[n] == Received([])
    ensures var q := Queued(script);
      && q.bytes == Delivered(script[..n])
      && q.rest == (if n == |script| then [] else script[n + 1..])
      && q.ended == (n == |script| || script[n] != WouldBlock)
  {
    if script != [] && script[0].Received? && script[0].chunk != [] {
      n := QueuedExactly(script[1..]);
      n := n + 1;
      assert script[..n][1..] == script[1..][..n - 1];
    } else {
      n := 0;
    }
  }

  lemma {:induction false} WaitedDelivers(script: seq<Event>)
    ensures Delivered(Waited(script)) == Delivered(script)
  {
    if script != [] && script[0].WouldBlock? { WaitedDelivers(script[1..]); }
  }

  lemma {:induction false} QueuedDelivers(script: seq<Event>)
    ensures var q := Queued(script); Delivered(script) == q.bytes + if q.ended then [] else Delivered(q.rest)
  {
    if script != [] && script[0].Received? && script[0].chunk != [] { QueuedDelivers(script[1..]); }
  }

  lemma WakeDelivers(script: seq<Event>)
    ensures var wake := Wake(script);
      if wake.None? then Delivered(script) == []
      else Delivered(script) == wake.value.bytes + if wake.value.ended then [] else Delivered(wake.value.rest)
  {
    WaitedDelivers(script);
    var arrived := Waited(script);
    if arrived != [] { QueuedDelivers(arrived[1..]); }
  }

  lemma {:induction false} JoinedFirst(first: Bytes, rest: seq<Bytes>)
    ensures Joined([first] + rest) == first + Joined(rest)
  {
    if rest == [] {
      assert [first] + rest == [first] && [first][..0] == [];
    } else {
      var n := |rest| - 1;
      JoinedFirst(first, rest[..n]);
      assert ([first] + rest)[..n + 1] == [first] + rest[..n];
    }
  }

  /** The wakes of a connection take exactly the bytes it delivers. */
  lemma {:induction false} WakesDeliver(script: seq<Event>)
    ensures Joined(Wakes(script)) == Delivered(script)
    decreases |script|
  {
    hide Wake; hide Delivered;
    WakeDelivers(script);
    var wake := Wake(script);
    if wake.Some? {
      var rest := if wake.value.ended then [] else Wakes(wake.value.rest);
      if !wake.value.ended { WakesDeliver(wake.value.rest); }
      JoinedFirst(wake.value.bytes, rest);
    }
  }

  lemma {:induction false} JoinedPrefix(wakes: seq<Bytes>, all: seq<Bytes>)
    requires wakes <= all
    ensures Joined(wakes) <= Joined(all)
  {
    if |wakes| < |all| {
      JoinedPrefix(wakes, all[..|all| - 1]);
    } else {
      assert wakes == all;
    }
  }

  /** The bytes gathered by a list of wakes. */
  function Joined(wakes: seq<Bytes>): Bytes {
    if wakes == [] then [] else Joined(wakes[..|wakes| - 1]) + wakes[|wakes| - 1]
  }

  /** The newest line of every wake that completes one. */
  function Newest(wakes: seq<Bytes>): seq<Bytes> {
    if wakes == [] then []
    else
      var before := wakes[..|wakes| - 1];
      var lines := Lines(Joined(wakes));
      Newest(before) + if |lines| > |Lines(Joined(before))| then [lines[|lines| - 1]] else []
  }

  /** The positions of those lines in the stream. */
  function Positions(wakes: seq<Bytes>): seq<nat> {
    if wakes == [] then []
    else
      var before, n := wakes[..|wakes| - 1], |Lines(Joined(wakes))|;
      Positions(before) + if n > |Lines(Joined(before))| then [n - 1] else []
  }

  /** `picked` is the subsequence of `lines` at the ascending positions `at`, and ends in the
      last of them. */
  predicate Picks(lines: seq<Bytes>, at: seq<nat>, picked: seq<Bytes>) {
    && |at| == |picked| <= |lines|
    && Ascending(at)
    && (forall k | 0 <= k < |at| :: at[k] < |lines| && picked[k] == lines[at[k]])
    && (lines != [] ==> at != [] && at[|at| - 1] == |lines| - 1)
  }

  lemma PicksMore(before: seq<Bytes>, at: seq<nat>, picked: seq<Bytes>, lines: seq<Bytes>)
    requires Picks(before, at, picked) && before <= lines && |lines| > |before|
    ensures Picks(lines, at + [|lines| - 1], picked + [lines[|lines| - 1]])
  {}

  /** Whatever the wakes, the reader hands on an increasing subsequence of the complete lines
      that ends in the last one. */
  lemma {:induction false} NewestIsSubsequence(wakes: seq<Bytes>)
    ensures Picks(Lines(Joined(wakes)), Positions(wakes), Newest(wakes))
  {
    hide Lines; hide Joined; hide Picks; hide Newest; hide Positions;
    if wakes == [] {
      NothingPicked();
    } else {
      var before := wakes[..|wakes| - 1];
      NewestIsSubsequence(before);
      Grown(wakes);
      LastWake(wakes);
      if |Lines(Joined(wakes))| > |Lines(Joined(before))| {
        PicksMore(Lines(Joined(before)), Positions(before), Newest(before), Lines(Joined(wakes)));
      } else {
        OneMore(Lines(Joined(before)), Lines(Joined(wakes)));
      }
    }
  }

  /** What the last wake adds. */
  lemma LastWake(wakes: seq<Bytes>)
    requires wakes != []
    ensures var before, lines := wakes[..|wakes| - 1], Lines(Joined(wakes));
      if |lines| > |Lines(Joined(before))| then
        Newest(wakes) == Newest(before) + [lines[|lines| - 1]] && Positions(wakes) == Positions(before) + [|lines| - 1]
      else
        Newest(wakes) == Newest(before) && Positions(wakes) == Positions(before)
  {
    hide Lines; hide Joined;
  }

  lemma NothingPicked()
    ensures Picks(Lines(Joined([])), Positions([]), Newest([]))
  {}

  /** No wake completes more than one line. */
  predicate Prompt(wakes: seq<Bytes>) {
    wakes == [] ||
    var before := wakes[..|wakes| - 1];
    Prompt(before) && |Lines(Joined(wakes))| <= |Lines(Joined(before))| + 1
  }

  /** Nothing is lost exactly when no wake completes more than one line. */
  lemma {:induction false} NothingDropped(wakes: seq<Bytes>)
    ensures |Newest(wakes)| == |Lines(Joined(wakes))| <==> Prompt(wakes)
    ensures Prompt(wakes) ==> Newest(wakes) == Lines(Joined(wakes))
  {
    hide Scan; hide Joined; hide Positions; hide Lines;
    if wakes != [] {
      var before := wakes[..|wakes| - 1];
      NothingDropped(before);
      AtMostAll(before);
      Grown(wakes);
      OneMore(Lines(Joined(before)), Lines(Joined(wakes)));
    } else {
      NothingRead();
    }
  }

  lemma NothingRead()
    ensures Lines(Joined([])) == []
  {}

  lemma AtMostAll(wakes: seq<Bytes>)
    ensures |Newest(wakes)| <= |Lines(Joined(wakes))|
  {
    NewestIsSubsequence(wakes);
  }

  lemma OneMore(before: seq<Bytes>, after: seq<Bytes>)
    requires before <= after
    ensures |after| == |before| ==> after == before
    ensures |after| == |before| + 1 ==> after == before + [after[|after| - 1]]
  {}

  lemma Grown(wakes: seq<Bytes>)
    requires wakes != []
    ensures Lines(Joined(wakes[..|wakes| - 1])) <= Lines(Joined(wakes))
  {
    LinesGrow(Joined(wakes[..|wakes| - 1]), wakes[|wakes| - 1]);
  }

  /** How the bytes are grouped into wakes does not matter for the newest line. */
  lemma ChunkingIrrelevant(wakes: seq<Bytes>, others: seq<Bytes>)
    requires Joined(wakes) == Joined(others)
    ensures Newest(wakes) == [] <==> Newest(others) == []
    ensures Newest(wakes) != [] ==> Newest(wakes)[|Newest(wakes)| - 1] == Newest(others)[|Newest(others)| - 1]
  {
    hide Lines; hide Joined; hide Newest; hide Positions;
    NewestIsSubsequence(wakes);
    NewestIsSubsequence(others);
  }

  /** Two connections that deliver the same bytes, however cut into chunks and however often
      nothing was queued, end with the same newest line, the same bytes kept back, and the same
      sum of lines handed on and dropped. */
  lemma ScriptsIrrelevant(script: seq<Event>, other: seq<Event>)
    requires Delivered(script) == Delivered(other)
    ensures var wakes, others := Wakes(script), Wakes(other);
      && Rest(Joined(wakes)) == Rest(Joined(others))
      && |Lines(Joined(wakes))| == |Lines(Joined(others))|
      && (Newest(wakes) == [] <==> Newest(others) == [])
      && (Newest(wakes) != [] ==> Newest(wakes)[|Newest(wakes)| - 1] == Newest(others)[|Newest(others)| - 1])
  {
    hide Joined; hide Wakes; hide Newest; hide Lines; hide Rest;
    WakesDeliver(script);
    WakesDeliver(other);
    ChunkingIrrelevant(Wakes(script), Wakes(other));
  }

  datatype Ending = Stopped | Disconnected | Undecodable

  /** A socket: the script of its receive calls and whether they block. */
  class Connection {
    var script: seq<Event>
    var blocking: bool

    constructor (script: seq<Event>)
      ensures this.script == script && blocking
    {
      this.script, blocking := script, true;
    }

    /** The next event of the script, where a blocking call waits until something arrives;
        past the script the peer is gone. */
    method Receive() returns (event: Event)
      modifies this`script
      ensures var before := if blocking then Waited(old(script)) else old(script);
        if before == [] then event == Received([]) && script == [] else event == before[0] && script == before[1..]
    {
      while script != []
        invariant Waited(script) == Waited(old(script)) && (!blocking ==> script == old(script))
        decreases |script|
      {
        event := script[0];
        script := script[1..];
        if !blocking || !event.WouldBlock? { return; }
      }
      event := Received([]);
    }
  }

  /** Whether `frames` are the decoded lines. */
  ghost predicate Decodes<Frame(!new)>(decode: Bytes -> Option<Frame>, lines: seq<Bytes>, frames: seq<Frame>) {
    |frames| == |lines| && forall k | 0 <= k < |lines| :: decode(lines[k]) == Some(frames[k])
  }

  /** The frames a wake adds: that of its newest line, if there is one and it decodes. */
  function Added<Frame>(decode: Bytes -> Option<Frame>, lines: seq<Bytes>): seq<Frame> {
    if lines == [] || decode(lines[|lines| - 1]).None? then [] else [decode(lines[|lines| - 1]).value]
  }

  /** A wake whose newest line does not decode. */
  predicate Breaks<Frame>(decode: Bytes -> Option<Frame>, lines: seq<Bytes>) {
    lines != [] && decode(lines[|lines| - 1]).None?
  }

  function Older(lines: seq<Bytes>): nat { if lines == [] then 0 else |lines| - 1 }

  /** What a finished or broken run has done with the lines of its wakes. */
  ghost predicate Ended<Frame(!new)>(decode: Bytes -> Option<Frame>, wakes: seq<Bytes>, buffer: Bytes, dropped: int,
                                     frames: seq<Frame>, broken: bool) {
    && buffer == Rest(Joined(wakes))
    && dropped == |Lines(Joined(wakes))| - |Newest(wakes)|
    && if broken then
         && Newest(wakes) != [] && wakes != []
         && Newest(wakes[..|wakes| - 1]) == Newest(wakes)[..|Newest(wakes)| - 1]
         && Decodes(decode, Newest(wakes)[..|Newest(wakes)| - 1], frames)
         && decode(Newest(wakes)[|Newest(wakes)| - 1]).None?
       else Decodes(decode, Newest(wakes), frames)
  }

  /** One more wake of a reader that takes the newest line of what it has. */
  lemma ReadingOn<Frame(!new)>(decode: Bytes -> Option<Frame>, before: seq<Bytes>, buffer: Bytes, dropped: int,
                               frames: seq<Frame>, gathered: Bytes)
    requires Ended(decode, before, buffer, dropped, frames, false)
    ensures var wakes, lines := before + [gathered], Lines(buffer + gathered);
      Ended(decode, wakes, Rest(buffer + gathered), dropped + Older(lines), frames + Added(decode, lines),
            Breaks(decode, lines))
  {
    hide Scan; hide Joined; hide Newest; hide Lines; hide Rest;
    Woken(before, gathered);
    var wakes, lines := before + [gathered], Lines(buffer + gathered);
    if lines == [] {
      assert frames + Added(decode, lines) == frames;
    } else if Breaks(decode, lines) {
      assert frames + Added(decode, lines) == frames && Newest(wakes)[..|Newest(wakes)| - 1] == Newest(before);
      assert wakes[..|wakes| - 1] == before;
    }
  }

  class TcpPoseStreamClient<Frame(!new)> {
    /** Decodes one line; `None` when it raises. */
    const decode: Bytes -> Option<Frame>
    var buffer: Bytes
    var framesDroppedByDrain: nat
    /** The frames put into the slot, oldest first. */
    var published: seq<Frame>

    constructor (decode: Bytes -> Option<Frame>)
      ensures this.decode == decode && buffer == [] && framesDroppedByDrain == 0 && published == []
    {
      this.decode, buffer, framesDroppedByDrain, published := decode, [], 0, [];
    }

    /** Cut everything up to the last newline off the buffer and keep its newest line. */
    method TakeNewestCompleteLine() returns (line: Option<Bytes>)
      modifies this`buffer, this`framesDroppedByDrain
      ensures var lines := Lines(old(buffer));
        && buffer == Rest(old(buffer))
        && line == (if lines == [] then None else Some(lines[|lines| - 1]))
        && framesDroppedByDrain == old(framesDroppedByDrain) + if lines == [] then 0 else |lines| - 1
    {
      hide *;
      CutAtLastNewline(buffer);
      var newlineIndex := LastNewline(buffer);
      if newlineIndex < 0 { return None; }
      var complete := buffer[..newlineIndex];
      buffer := buffer[newlineIndex + 1..];
      var dropped := Newlines(complete);
      if dropped > 0 {
        framesDroppedByDrain := framesDroppedByDrain + dropped;
      }
      line := Some(LastPiece(complete));
    }

    /** Pull everything already queued; true at the end of the stream. */
    method DrainAvailable(connection: Connection) returns (reachedEof: bool)
      modifies this`buffer, connection
      ensures var queued := Queued(old(connection.script));
        && buffer == old(buffer) + queued.bytes
        && reachedEof == queued.ended
        && connection.script == queued.rest && connection.blocking
    {
      hide Queued; hide Waited;
      connection.blocking := false;
      while true
        invariant !connection.blocking
        invariant var all, now := Queued(old(connection.script)), Queued(connection.script);
          old(buffer) + all.bytes == buffer + now.bytes && all.ended == now.ended && all.rest == now.rest
        decreases |connection.script|
      {
        QueuedNext(connection.script, buffer);
        var event := connection.Receive();
        if event.WouldBlock? { reachedEof := false; break; }
        if event.Failure? || event.chunk == [] { reachedEof := true; break; }
        buffer := buffer + event.chunk;
      }
      connection.blocking := true;
    }

    /** One wake of the reader: wait for the first bytes, then drain; false when the connection
        is gone instead. */
    method GatherWake(connection: Connection) returns (woken: bool, reachedEof: bool)
      requires connection.blocking
      modifies this`buffer, connection
      ensures connection.blocking && woken == Wake(old(connection.script)).Some?
      ensures !woken ==> buffer == old(buffer)
      ensures woken ==> var wake := Wake(old(connection.script)).value;
        buffer == old(buffer) + wake.bytes && reachedEof == wake.ended && connection.script == wake.rest
    {
      hide Queued; hide Waited;
      var event := connection.Receive();
      if event.Failure? || event.chunk == [] { return false, true; }
      buffer := buffer + event.chunk;
      reachedEof := DrainAvailable(connection);
      woken := true;
    }

    /** Take the newest complete line out of the buffer and put its frame into the slot; false
        when it does not decode. */
    method PublishNewest() returns (ok: bool)
      modifies this`buffer, this`framesDroppedByDrain, this`published
      ensures var lines := Lines(old(buffer));
        && buffer == Rest(old(buffer))
        && framesDroppedByDrain == old(framesDroppedByDrain) + Older(lines)
        && published == old(published) + Added(decode, lines)
        && ok == !Breaks(decode, lines)
    {
      hide Lines; hide Rest;
      var newestLine := TakeNewestCompleteLine();
      if newestLine.None? { return true; }
      var frame := decode(newestLine.value);
      ok := frame.Some?;
      if ok { published := published + [frame.value]; }
    }

    /** Read one connection until it ends, a line does not decode, or the reader is stopped
        after some number of wakes.  It runs through the connection's wakes in order, all of
        them unless it is stopped before or the newest line of one does not decode.  The frames
        put into the slot are the decoded newest lines of the wakes; every other complete line is
        counted as dropped, except that a line that does not decode ends the run uncounted; the
        buffer holds the bytes after the last newline. */
    method ReadFrames(connection: Connection, wakesUntilStop: nat)
      returns (ending: Ending, ghost wakes: seq<Bytes>, ghost frames: seq<Frame>)
      modifies this`buffer, this`framesDroppedByDrain, this`published, connection
      ensures wakes <= Wakes(old(connection.script)) && |wakes| <= wakesUntilStop
      ensures ending == Disconnected ==> wakes == Wakes(old(connection.script))
      ensures ending == Disconnected ==> |wakes| < wakesUntilStop || EndsInWake(old(connection.script))
      ensures ending == Stopped ==> |wakes| == wakesUntilStop
      ensures ending == Stopped ==> wakes != Wakes(old(connection.script)) || !EndsInWake(old(connection.script))
      ensures Joined(wakes) <= Delivered(old(connection.script))
      ensures ending == Disconnected ==> Joined(wakes) == Delivered(old(connection.script))
      ensures buffer == Rest(Joined(wakes))
      ensures framesDroppedByDrain == old(framesDroppedByDrain) + |Lines(Joined(wakes))| - |Newest(wakes)|
      ensures published == old(published) + frames
      ensures ending != Undecodable ==> Decodes(decode, Newest(wakes), frames)
      ensures ending == Undecodable ==>
        && Newest(wakes) != [] && wakes != []
        && Newest(wakes[..|wakes| - 1]) == Newest(wakes)[..|Newest(wakes)| - 1]
        && Decodes(decode, Newest(wakes)[..|Newest(wakes)| - 1], frames)
        && decode(Newest(wakes)[|Newest(wakes)| - 1]).None?
    {
      hide Scan; hide Joined; hide Newest; hide Lines; hide Rest; hide Delivered; hide Wakes; hide EndsInWake;
      hide Decodes; hide Ended;
      connection.blocking := true;
      buffer := [];
      ending, wakes, frames := ReadWakes(connection, wakesUntilStop);
      WakesDeliver(old(connection.script));
      JoinedPrefix(wakes, Wakes(old(connection.script)));
      Outcome(decode, wakes, buffer, old(framesDroppedByDrain), framesDroppedByDrain, frames, ending == Undecodable);
    }

    /** The loop over the wakes. */
    method ReadWakes(connection: Connection, wakesUntilStop: nat)
      returns (ending: Ending, ghost wakes: seq<Bytes>, ghost frames: seq<Frame>)
      requires connection.blocking && buffer == []
      modifies this`buffer, this`framesDroppedByDrain, this`published, connection
      ensures Progress(old(connection.script), wakes, wakesUntilStop, ending)
      ensures published == old(published) + frames
      ensures Ended(decode, wakes, buffer, framesDroppedByDrain - old(framesDroppedByDrain), frames,
                    ending == Undecodable)
    {
      hide Scan; hide Joined; hide Newest; hide Lines; hide Rest; hide Wake; hide Wakes; hide EndsInWake;
      hide Added; hide Breaks; hide Older; hide Ended;
      Asleep(decode);
      ghost var script := connection.script;
      wakes, frames := [], [];
      ending := Stopped;
      for wake := 0 to wakesUntilStop
        invariant connection.blocking && |wakes| == wake && ending == Stopped
        invariant Wakes(script) == wakes + Wakes(connection.script)
        invariant EndsInWake(script) == EndsInWake(connection.script)
        invariant Ended(decode, wakes, buffer, framesDroppedByDrain - old(framesDroppedByDrain), frames, false)
        invariant published == old(published) + frames
      {
        ghost var here, kept := connection.script, buffer;
        NextWake(here);
        var woken, reachedEof := GatherWake(connection);
        if !woken { ending := Disconnected; break; }
        ghost var lines := Lines(buffer);
        ReadingOn(decode, wakes, kept, framesDroppedByDrain - old(framesDroppedByDrain), frames,
                  Wake(here).value.bytes);
        var ok := PublishNewest();
        wakes, frames := wakes + [Wake(here).value.bytes], frames + Added(decode, lines);
        if !ok { ending := Undecodable; break; }
        if reachedEof { ending := Disconnected; break; }
      }
      NextWake(connection.script);
    }
  }

  /** How far through its wakes a run over a connection gets before it ends. */
  predicate Progress(script: seq<Event>, wakes: seq<Bytes>, wakesUntilStop: nat, ending: Ending) {
    && wakes <= Wakes(script) && |wakes| <= wakesUntilStop
    && (ending == Disconnected ==> wakes == Wakes(script) && (|wakes| < wakesUntilStop || EndsInWake(script)))
    && (ending == Stopped ==> |wakes| == wakesUntilStop && (wakes != Wakes(script) || !EndsInWake(script)))
  }

  lemma NextWake(script: seq<Event>)
    ensures var wake := Wake(script);
      && Wakes(script) ==
           (if wake.None? then []
            else [wake.value.bytes] + if wake.value.ended then [] else Wakes(wake.value.rest))
      && EndsInWake(script) == (wake.Some? && (wake.value.ended || EndsInWake(wake.value.rest)))
  {}

  lemma Outcome<Frame(!new)>(decode: Bytes -> Option<Frame>, wakes: seq<Bytes>, buffer: Bytes, before: nat, after: nat,
                             frames: seq<Frame>, broken: bool)
    requires Ended(decode, wakes, buffer, after - before, frames, broken)
    ensures buffer == Rest(Joined(wakes)) && after == before + |Lines(Joined(wakes))| - |Newest(wakes)|
    ensures !broken ==> Decodes(decode, Newest(wakes), frames)
    ensures broken ==>
      && Newest(wakes) != [] && wakes != []
      && Newest(wakes[..|wakes| - 1]) == Newest(wakes)[..|Newest(wakes)| - 1]
      && Decodes(decode, Newest(wakes)[..|Newest(wakes)| - 1], frames)
      && decode(Newest(wakes)[|Newest(wakes)| - 1]).None?
  {}

  lemma Asleep<Frame(!new)>(decode: Bytes -> Option<Frame>)
    ensures Joined([]) == [] && Ended(decode, [], [], 0, [], false)
  {}

  /** One more wake: its lines are those of the bytes kept back and the bytes gathered. */
  lemma Woken(before: seq<Bytes>, gathered: Bytes)
    ensures var wakes, buffer := before + [gathered], Rest(Joined(before)) + gathered;
      && Joined(wakes) == Joined(before) + gathered
      && Rest(Joined(wakes)) == Rest(buffer)
      && |Lines(Joined(wakes))| == |Lines(Joined(before))| + |Lines(buffer)|
      && Newest(wakes) == if Lines(buffer) == [] then Newest(before)
           else Newest(before) + [Lines(buffer)[|Lines(buffer)| - 1]]
  {
    var wakes := before + [gathered];
    assert wakes[..|wakes| - 1] == before;
    ScanAppend(Joined(before), gathered);
  }
}
