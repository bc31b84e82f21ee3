/** The pose stream end to end: framing at the server (stream_server.py), any chunking on the
    way, latest-wins reading at the client (stream_client.py). */
module Delivery {
  import opened Prelude
  import F = Frames
  import opened Codec
  import opened LineSplit
  import opened StreamClient
  import LatestSlot

  /** The JSON text library.  `exact` holds of the values whose text reads back as the same
      value. */
  datatype Text = Text(dumps: Json -> Bytes, loads: Bytes -> Option<Json>, exact: Json -> bool)

  /** Compact JSON text never holds a raw newline (section 7 of RFC 8259), and exact values
      survive it. */
  ghost predicate Sound(text: Text) {
    && (forall j {:trigger text.dumps(j)} :: Clean(text.dumps(j)))
    && (forall j {:trigger text.dumps(j)} :: text.exact(j) ==> text.loads(text.dumps(j)) == Some(j))
  }

  /** Decoding one line; text that is not JSON raises like a value that is not a frame. */
  function DecodeLine(text: Text, line: Bytes): Option<Frame> {
    var j := text.loads(line);
    if j.None? then None
    else
      var f := Decode(j.value);
      if f.Err? then None else Some(f.value)
  }

  predicate Encodable(frames: seq<WireFrame>) { forall i | 0 <= i < |frames| :: Encode(frames[i]).Ok? }

  function EncodedLines(text: Text, frames: seq<WireFrame>): seq<Bytes>
    requires Encodable(frames)
  {
    seq(|frames|, i requires 0 <= i < |frames| => text.dumps(Encode(frames[i]).value))
  }

  /** What happens when the server comes to a frame; a failing write may still have sent the
      first bytes of the line. */
  datatype Fate = Sent | ParentGone | ClientGone | WriteFailed(written: nat)

  datatype ServerEnding = Finished | ParentExited | ClientLeft | Raised

  /** The first frame from `from` on that cannot be sent whole. */
  function FirstUnsent(frames: seq<WireFrame>, fate: nat -> Fate, from: nat): (n: nat)
    requires from <= |frames|
    ensures from <= n <= |frames|
    ensures forall i | from <= i < n :: fate(i) == Sent && Encode(frames[i]).Ok?
    ensures n < |frames| ==> fate(n) != Sent || Encode(frames[n]).Err?
    decreases |frames| - from
  {
    if from == |frames| || fate(from) != Sent || Encode(frames[from]).Err? then from
    else FirstUnsent(frames, fate, from + 1)
  }

  /** The frames that are sent whole. */
  function Whole(frames: seq<WireFrame>, fate: nat -> Fate): (r: seq<WireFrame>)
    ensures r <= frames && Encodable(r)
  {
    frames[..FirstUnsent(frames, fate, 0)]
  }

  /** What a failing write leaves of the next line. */
  function Partial(text: Text, frames: seq<WireFrame>, fate: nat -> Fate): Bytes {
    var n := FirstUnsent(frames, fate, 0);
    if n == |frames| || !fate(n).WriteFailed? || Encode(frames[n]).Err? then []
    else
      var line := text.dumps(Encode(frames[n]).value);
      if fate(n).written <= |line| then line[..fate(n).written] else line
  }

  /** The bytes on the wire: whole lines, and at most the beginning of the next. */
  function SentBytes(text: Text, frames: seq<WireFrame>, fate: nat -> Fate): Bytes {
    Unlines(EncodedLines(text, Whole(frames, fate))) + Partial(text, frames, fate)
  }

  function EndingAt(frames: seq<WireFrame>, fate: nat -> Fate, n: nat): ServerEnding {
    if n >= |frames| then Finished
    else if fate(n).ParentGone? then ParentExited
    else if fate(n).ClientGone? then ClientLeft
    else if Encode(frames[n]).Err? then Raised
    else ClientLeft
  }

  /** Write the frames as lines until one of them cannot be sent. */
  method WriteFrames(text: Text, frames: seq<WireFrame>, fate: nat -> Fate)
    returns (ending: ServerEnding, stream: Bytes)
    ensures stream == SentBytes(text, frames, fate)
    ensures ending == EndingAt(frames, fate, FirstUnsent(frames, fate, 0))
  {
    hide Encode;
    stream := [];
    for i := 0 to |frames|
      invariant FirstUnsent(frames, fate, 0) == FirstUnsent(frames, fate, i)
      invariant Encodable(frames[..i]) && stream == Unlines(EncodedLines(text, frames[..i]))
    {
      if fate(i).ParentGone? { return ParentExited, stream; }
      if fate(i).ClientGone? { return ClientLeft, stream; }
      var encoded := Encode(frames[i]);
      if encoded.Err? { return Raised, stream; }
      var line := text.dumps(encoded.value);
      if fate(i).WriteFailed? {
        stream := stream + if fate(i).written <= |line| then line[..fate(i).written] else line;
        return ClientLeft, stream;
      }
      assert frames[..i + 1][..i] == frames[..i];
      assert EncodedLines(text, frames[..i + 1]) == EncodedLines(text, frames[..i]) + [line];
      stream := stream + line + [NEWLINE];
    }
    ending := Finished;
  }

  /** What reaches the wire: every frame up to the first that meets a gone parent or client, cannot
      be encoded, or whose write fails, each as its text and a line feed; and of a line whose write
      failed, the bytes that were written. */
  lemma SentExactly(text: Text, frames: seq<WireFrame>, fate: nat -> Fate, k: nat)
    requires k <= |frames|
    ensures var whole := Whole(frames, fate);
      && whole <= frames
      && (k <= |whole| <==> forall i | 0 <= i < k :: fate(i) == Sent && Encode(frames[i]).Ok?)
      && (forall i | 0 <= i < |whole| :: EncodedLines(text, whole)[i] == text.dumps(Encode(frames[i]).value))
      && Unlines(EncodedLines(text, whole)) <= SentBytes(text, frames, fate)
      && var rest := SentBytes(text, frames, fate)[|Unlines(EncodedLines(text, whole))|..];
         if |whole| < |frames| && fate(|whole|).WriteFailed? && Encode(frames[|whole|]).Ok? then
           var line := text.dumps(Encode(frames[|whole|]).value);
           rest == if fate(|whole|).written <= |line| then line[..fate(|whole|).written] else line
         else rest == []
  {
    hide Encode; hide Unlines;
    var n := FirstUnsent(frames, fate, 0);
    var lines := Unlines(EncodedLines(text, Whole(frames, fate)));
    assert SentBytes(text, frames, fate)[|lines|..] == Partial(text, frames, fate);
    if n < k { assert fate(n) != Sent || Encode(frames[n]).Err?; }
  }

  /** Why the server stops. */
  lemma EndsExactly(frames: seq<WireFrame>, fate: nat -> Fate)
    ensures var n := |Whole(frames, fate)|;
      EndingAt(frames, fate, FirstUnsent(frames, fate, 0)) ==
        if n == |frames| then Finished
        else if fate(n) == ParentGone then ParentExited
        else if fate(n) == ClientGone then ClientLeft
        else if Encode(frames[n]).Err? then Raised
        else ClientLeft
  {
    hide Encode;
  }

  lemma LinesAreClean(text: Text, frames: seq<WireFrame>)
    requires Sound(text) && Encodable(frames)
    ensures AllClean(EncodedLines(text, frames))
  {}

  /** Any beginning of what was sent holds the beginning of the sent lines, whole. */
  lemma PrefixLines(lines: seq<Bytes>, tail: Bytes, received: Bytes)
    requires AllClean(lines) && Clean(tail) && received <= Unlines(lines) + tail
    ensures Lines(received) <= lines
  {
    hide Scan; hide Unlines; hide AllClean;
    var sent := Unlines(lines) + tail;
    assert sent == received + sent[|received|..];
    LinesGrow(received, sent[|received|..]);
    SplitUnique(lines, tail);
    UnfoldLines(sent);
  }

  lemma UnfoldLines(s: Bytes)
    ensures Lines(s) == Scan(s).lines
  {}

  lemma AllArrived(lines: seq<Bytes>, tail: Bytes)
    requires AllClean(lines) && Clean(tail)
    ensures Lines(Unlines(lines) + tail) == lines
  {
    SplitUnique(lines, tail);
  }

  /** What the decoder accepts of a produced frame, and whose text is exact. */
  ghost predicate Deliverable(text: Text, f: WireFrame) {
    && Encode(f).Ok? && text.exact(Encode(f).value)
    && f.schemaVersion == F.SCHEMA_VERSION
    && (f.status == "ok" || f.status == "no_person")
    && (f.pose.Some? ==> F.WellShaped(f.pose.value))
  }

  lemma LineDecodes(text: Text, f: WireFrame)
    requires Sound(text) && Deliverable(text, f)
    ensures DecodeLine(text, text.dumps(Encode(f).value)) == Some(Normalized(f))
  {
    hide Encode; hide Decode; hide Normalized; hide F.WellShaped;
    RoundTrip(f);
  }

  lemma PartialIsClean(text: Text, frames: seq<WireFrame>, fate: nat -> Fate)
    requires Sound(text)
    ensures Clean(Partial(text, frames, fate))
  {
    hide Encode;
  }

  /** Every frame that is sent whole can be delivered. */
  ghost predicate AllDeliverable(text: Text, frames: seq<WireFrame>) {
    forall i | 0 <= i < |frames| :: Deliverable(text, frames[i])
  }

  /** End-to-end delivery: whatever part of the stream has arrived in whatever chunks and
      wakes, it holds the first frames whole, all of them once everything has arrived; every
      line the reader takes decodes; the frames it publishes are the produced ones at ascending
      positions, numbers turned into reals; and the last of them is the last frame that has
      arrived whole. */
  lemma EndToEnd(text: Text, frames: seq<WireFrame>, fate: nat -> Fate, wakes: seq<Bytes>)
    requires Sound(text) && AllDeliverable(text, Whole(frames, fate))
    requires Joined(wakes) <= SentBytes(text, frames, fate)
    ensures var whole, at, arrived := Whole(frames, fate), Positions(wakes), |Lines(Joined(wakes))|;
      && arrived <= |whole|
      && Lines(Joined(wakes)) == EncodedLines(text, whole)[..arrived]
      && |Newest(wakes)| == |at| && Ascending(at)
      && (forall k | 0 <= k < |at| ::
            at[k] < arrived && DecodeLine(text, Newest(wakes)[k]) == Some(Normalized(frames[at[k]])))
      && (arrived > 0 ==> at != [] && at[|at| - 1] == arrived - 1)
      && (Joined(wakes) == SentBytes(text, frames, fate) ==> arrived == |whole|)
  {
    hide Sound; hide Encode; hide Normalized; hide DecodeLine; hide Joined; hide Newest; hide Positions;
    hide Lines; hide Deliverable;
    hide Whole; hide Partial;
    var whole := Whole(frames, fate);
    var lines := EncodedLines(text, whole);
    LinesAreClean(text, whole);
    PartialIsClean(text, frames, fate);
    PrefixLines(lines, Partial(text, frames, fate), Joined(wakes));
    AllArrived(lines, Partial(text, frames, fate));
    NewestIsSubsequence(wakes);
    var at := Positions(wakes);
    forall k | 0 <= k < |at|
      ensures DecodeLine(text, Newest(wakes)[k]) == Some(Normalized(frames[at[k]]))
    {
      assert Deliverable(text, whole[at[k]]) && whole[at[k]] == frames[at[k]];
      LineDecodes(text, frames[at[k]]);
    }
  }

  /** So a reader of such a stream never stops over a line, and what it publishes is exactly
      that selection of the produced frames. */
  lemma PublishedFrames(text: Text, frames: seq<WireFrame>, fate: nat -> Fate, wakes: seq<Bytes>, published: seq<Frame>)
    requires Sound(text) && AllDeliverable(text, Whole(frames, fate))
    requires Joined(wakes) <= SentBytes(text, frames, fate)
    ensures Newest(wakes) != [] ==> DecodeLine(text, Newest(wakes)[|Newest(wakes)| - 1]).Some?
    ensures Decodes(line => DecodeLine(text, line), Newest(wakes), published) <==>
      && |published| == |Positions(wakes)|
      && forall k | 0 <= k < |published| ::
           Positions(wakes)[k] < |frames| && published[k] == Normalized(frames[Positions(wakes)[k]])
  {
    hide Sound; hide Encode; hide Normalized; hide DecodeLine; hide Joined; hide Newest; hide Positions;
    hide Lines; hide AllDeliverable;
    hide Whole; hide SentBytes;
    EndToEnd(text, frames, fate, wakes);
  }

  /** The frame published as number `i`: the produced one at its place, numbers turned into
      reals. */
  ghost predicate PublishesAt(frames: seq<WireFrame>, at: seq<nat>, published: seq<Frame>) {
    |published| == |at| && forall i | 0 <= i < |at| :: at[i] < |frames| && published[i] == Normalized(frames[at[i]])
  }

  /** A client reading a connection that carries what the server sent: no line ends its run, and
      what it publishes are the produced frames at the places its wakes pick; when it runs until
      the connection ends after everything was delivered, the last one published is the last one
      sent. */
  method ReadStream(text: Text, frames: seq<WireFrame>, fate: nat -> Fate, connection: Connection, wakesUntilStop: nat)
    returns (client: TcpPoseStreamClient<Frame>, ending: Ending, ghost wakes: seq<Bytes>)
    requires Sound(text) && AllDeliverable(text, Whole(frames, fate))
    requires Delivered(connection.script) <= SentBytes(text, frames, fate)
    modifies connection
    ensures ending != Undecodable && wakes <= Wakes(old(connection.script))
    ensures |wakes| < wakesUntilStop ==> wakes == Wakes(old(connection.script))
    ensures wakes != Wakes(old(connection.script)) ==> |wakes| == wakesUntilStop
    ensures PublishesAt(frames, Positions(wakes), client.published)
    ensures client.framesDroppedByDrain + |client.published| == |Lines(Joined(wakes))|
    ensures var whole := Whole(frames, fate);
      && wakes == Wakes(old(connection.script)) && Delivered(old(connection.script)) == SentBytes(text, frames, fate)
      && whole != [] ==>
        client.published != [] && client.published[|client.published| - 1] == Normalized(whole[|whole| - 1])
  {
    hide Sound; hide Encode; hide Normalized; hide DecodeLine; hide Joined; hide Newest; hide Positions; hide Lines;
    hide AllDeliverable; hide Whole; hide SentBytes; hide Wakes; hide EndsInWake; hide Delivered;
    ghost var script := connection.script;
    client := new TcpPoseStreamClient(line => DecodeLine(text, line));
    ghost var published: seq<Frame>;
    ending, wakes, published := client.ReadFrames(connection, wakesUntilStop);
    WakesDeliver(script);
    EndToEnd(text, frames, fate, wakes);
    PublishedFrames(text, frames, fate, wakes, published);
    NewestIsSubsequence(wakes);
  }

  /** From produced to consumed frames: with any client reading, and any interleaving of its
      reader and the main thread, what the main thread takes are produced frames at strictly
      ascending places; and once the reader has published all it will, the main thread has or
      can get the last frame that arrived whole. */
  lemma ProducedToConsumed(text: Text, frames: seq<WireFrame>, fate: nat -> Fate, wakes: seq<Bytes>,
                           published: seq<Frame>, schedule: seq<LatestSlot.Thread>)
    requires Sound(text) && AllDeliverable(text, Whole(frames, fate))
    requires Joined(wakes) <= SentBytes(text, frames, fate)
    requires PublishesAt(frames, Positions(wakes), published) && LatestSlot.Run(schedule).published <= |published|
    ensures var at, consumed := Positions(wakes), LatestSlot.Run(schedule).consumed;
      && (forall k | 0 <= k < |consumed| ::
            consumed[k] < |at| && at[consumed[k]] < |frames|
              && published[consumed[k]] == Normalized(frames[at[consumed[k]]]))
      && (forall j, k | 0 <= j < k < |consumed| :: at[consumed[j]] < at[consumed[k]])
    ensures var s, arrived := LatestSlot.Run(schedule), |Lines(Joined(wakes))|;
      s.place == LatestSlot.Between && s.published == |published| > 0 ==>
        var next := LatestSlot.Run(schedule + [LatestSlot.Main]).consumed;
        && next != [] && 0 < arrived <= |frames| && next[|next| - 1] < |published|
        && published[next[|next| - 1]] == Normalized(frames[arrived - 1])
  {
    hide Sound; hide Encode; hide Normalized; hide DecodeLine; hide Joined; hide Newest; hide Positions; hide Lines;
    hide AllDeliverable; hide Whole; hide SentBytes; hide LatestSlot.Run; hide PublishesAt;
    EndToEnd(text, frames, fate, wakes);
    LatestSlot.ConsumedInOrder(schedule);
    var s, at := LatestSlot.Run(schedule), Positions(wakes);
    TakesProduced(frames, at, published, s.consumed, s.published);
    if s.place == LatestSlot.Between && s.published == |published| > 0 {
      LatestSlot.NewestIsReachable(schedule);
      var newest: seq<nat> := [|published| - 1];
      TakesProduced(frames, at, published, newest, |published|);
      assert newest[0] == |published| - 1;
    }
  }

  /** Taking published frames in order is taking produced frames in order. */
  lemma TakesProduced(frames: seq<WireFrame>, at: seq<nat>, published: seq<Frame>, consumed: seq<nat>, bound: nat)
    requires PublishesAt(frames, at, published) && Ascending(at) && bound <= |published|
    requires Ascending(consumed) && LatestSlot.Below(consumed, bound)
    ensures |at| == |published|
    ensures forall k | 0 <= k < |consumed| ::
      consumed[k] < |at| && at[consumed[k]] < |frames| && published[consumed[k]] == Normalized(frames[at[consumed[k]]])
    ensures forall j, k | 0 <= j < k < |consumed| :: at[consumed[j]] < at[consumed[k]]
  {
    hide Normalized;
  }
}
