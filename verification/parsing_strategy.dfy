/** The frame assembler: incoming text is appended to a cache, and complete frames
    are cut off the front of the cache, each at the first frame separator, until no
    separator is left. */
module ParsingStrategy {
  import opened Wrappers
  import opened Seqs
  import opened Constants
  import opened Messages
  import opened MessageFactory

  /** The frame separator occurs in `s` at position `i` (ordinal comparison). */
  predicate SeparatorAt(s: string, i: int) {
    0 <= i && i + FrameSeparatorLength <= |s| && s[i..i + FrameSeparatorLength] == FrameSeparator
  }

  predicate HasSeparator(s: string) {
    exists i :: 0 <= i < |s| && SeparatorAt(s, i)
  }

  /** Whether the separator occurs at `i` depends only on the text it covers. */
  lemma SeparatorAtConcat(s: string, t: string, i: int)
    requires 0 <= i && i + FrameSeparatorLength <= |s|
    ensures SeparatorAt(s + t, i) <==> SeparatorAt(s, i)
  {
    assert (s + t)[i..i + FrameSeparatorLength] == s[i..i + FrameSeparatorLength];
  }

  function IndexOfSeparatorFrom(s: string, from: nat): (r: Option<nat>)
    requires from <= |s|
    ensures r.None? <==> forall i :: from <= i ==> !SeparatorAt(s, i)
    ensures r.Some? ==> from <= r.value && SeparatorAt(s, r.value)
    ensures r.Some? ==> forall j :: from <= j < r.value ==> !SeparatorAt(s, j)
    decreases |s| - from
  {
    if from + FrameSeparatorLength > |s| then None
    else if SeparatorAt(s, from) then Some(from)
    else IndexOfSeparatorFrom(s, from + 1)
  }

  /** Ordinal `IndexOf("\n\n")`: the position of the first separator in `s`. */
  function IndexOfSeparator(s: string): (r: Option<nat>)
    ensures r.None? <==> !HasSeparator(s)
    ensures r.Some? ==> SeparatorAt(s, r.value)
    ensures r.Some? ==> forall j :: 0 <= j < r.value ==> !SeparatorAt(s, j)
  {
    IndexOfSeparatorFrom(s, 0)
  }

  /** A cut frame: it ends with the separator, and that is its first occurrence. */
  predicate IsFrame(f: string) {
    && |f| >= FrameSeparatorLength
    && SeparatorAt(f, |f| - FrameSeparatorLength)
    && forall j :: 0 <= j < |f| - FrameSeparatorLength ==> !SeparatorAt(f, j)
  }

  predicate AllFrames(frames: seq<string>) {
    forall k :: 0 <= k < |frames| ==> IsFrame(frames[k])
  }

  /** `AddMessagePart`: the fragment is appended verbatim; nothing is parsed. */
  function AddMessagePart(cache: string, part: string): (r: string)
    ensures |r| == |cache| + |part|
    ensures r[..|cache|] == cache && r[|cache|..] == part
  {
    cache + part
  }

  /** A frame cut off the front of the cache, and what is left of the cache. */
  datatype Cut = Cut(frame: string, rest: string)

  /** The cut of `TryExtractOneMessage`: the prefix through the first separator. */
  function TryCutFrame(cache: string): (r: Option<Cut>)
    ensures r.None? <==> !HasSeparator(cache)
    ensures r.Some? ==> cache == r.value.frame + r.value.rest
    ensures r.Some? ==> IsFrame(r.value.frame)
  {
    match IndexOfSeparator(cache)
    case None => None
    case Some(i) =>
      var lengthToRemove := i + FrameSeparatorLength;
      var frame, rest := cache[..lengthToRemove], cache[lengthToRemove..];
      assert cache == frame + rest;
      forall j | 0 <= j <= i
        ensures SeparatorAt(frame, j) <==> SeparatorAt(cache, j)
      {
        SeparatorAtConcat(frame, rest, j);
      }
      Some(Cut(frame, rest))
  }

  /** A frame at the front of a text is exactly what gets cut. */
  lemma CutOfFrame(frame: string, rest: string)
    requires IsFrame(frame)
    ensures TryCutFrame(frame + rest) == Some(Cut(frame, rest))
  {
    var s := frame + rest;
    var i := |frame| - FrameSeparatorLength;
    forall j | 0 <= j <= i
      ensures SeparatorAt(s, j) <==> SeparatorAt(frame, j)
    {
      SeparatorAtConcat(frame, rest, j);
    }
    assert IndexOfSeparator(s) == Some(i);
    assert s[..|frame|] == frame;
  }

  /** The event of one cut, and the cache after it: `TryExtractOneMessage`. */
  datatype Extracted = Extracted(message: EventMessage, cache: string)

  /** `TryExtractOneMessage`: it fails exactly when the cache holds no separator;
      otherwise it removes the prefix through the first separator and returns that
      prefix's event. */
  function TryExtractOneMessage(cache: string): (r: Option<Extracted>)
    ensures r.None? <==> !HasSeparator(cache)
    ensures r.Some? ==> |r.value.cache| + FrameSeparatorLength <= |cache|
    ensures r.Some? ==>
              var frame := cache[..|cache| - |r.value.cache|];
              && cache == frame + r.value.cache
              && IsFrame(frame)
              && r.value.message == CreateFromRawMessage(frame)
  {
    match TryCutFrame(cache)
    case None => None
    case Some(cut) =>
      assert cut.frame == cache[..|cache| - |cut.rest|];
      Some(Extracted(CreateFromRawMessage(cut.frame), cut.rest))
  }

  /** The frames of a full drain and the cache left behind. */
  datatype Drained = Drained(frames: seq<string>, rest: string)

  lemma ConcatPrepend(frame: string, frames: seq<string>, rest: string)
    ensures Concat([frame] + frames) + rest == frame + (Concat(frames) + rest)
  {
    assert ([frame] + frames)[0] == frame && ([frame] + frames)[1..] == frames;
  }

  /** One more cut frame in front of a list of cut frames. */
  lemma AllFramesPrepend(frame: string, frames: seq<string>)
    requires IsFrame(frame) && AllFrames(frames)
    ensures AllFrames([frame] + frames)
  {
    var all := [frame] + frames;
    forall k | 0 <= k < |all| ensures IsFrame(all[k]) {
      if k > 0 {
        assert all[k] == frames[k - 1];
      }
    }
  }

  /** The loop of `ExtractCompleteMessageFromCache`, as cuts: frame after frame is
      cut off the front until no separator is left. The cache is the cut frames
      followed by what is left. */
  function Drain(cache: string): (r: Drained)
    ensures Concat(r.frames) + r.rest == cache
    decreases |cache|
  {
    match TryCutFrame(cache)
    case None => Drained([], cache)
    case Some(cut) =>
      var d := Drain(cut.rest);
      ConcatPrepend(cut.frame, d.frames, d.rest);
      Drained([cut.frame] + d.frames, d.rest)
  }

  /** Every piece a drain cuts is a frame, and no separator is left behind. */
  lemma {:induction false} DrainIsFrames(cache: string)
    ensures AllFrames(Drain(cache).frames)
    ensures !HasSeparator(Drain(cache).rest)
    decreases |cache|
  {
    match TryCutFrame(cache)
    case None =>
      assert Drain(cache) == Drained([], cache);
    case Some(cut) =>
      DrainIsFrames(cut.rest);
      AllFramesPrepend(cut.frame, Drain(cut.rest).frames);
  }

  /** With no separator in the cache, a drain cuts nothing and leaves the cache as
      it is. */
  lemma DrainWithoutSeparator(cache: string)
    requires !HasSeparator(cache)
    ensures Drain(cache) == Drained([], cache)
  {
  }

  /** The decomposition a drain finds is the only one: any split of the cache into
      cut frames followed by a separator-free rest is the drain's. */
  lemma {:induction false} DrainUnique(cache: string, frames: seq<string>, rest: string)
    requires Concat(frames) + rest == cache
    requires AllFrames(frames)
    requires !HasSeparator(rest)
    ensures Drain(cache) == Drained(frames, rest)
    decreases |frames|
  {
    if |frames| > 0 {
      var tail := Concat(frames[1..]) + rest;
      assert Concat(frames) == frames[0] + Concat(frames[1..]);
      assert cache == frames[0] + tail;
      CutOfFrame(frames[0], tail);
      assert AllFrames(frames[1..]) by {
        forall k | 0 <= k < |frames| - 1 ensures IsFrame(frames[1..][k]) {
          assert frames[1..][k] == frames[k + 1];
        }
      }
      DrainUnique(tail, frames[1..], rest);
      assert Drain(cache) == Drained([frames[0]] + Drain(tail).frames, Drain(tail).rest);
      assert frames == [frames[0]] + frames[1..];
    } else {
      assert Concat(frames) + rest == rest;
      assert Drain(rest) == Drained([], rest);
    }
  }

  lemma AllFramesAppend(a: seq<string>, b: seq<string>)
    requires AllFrames(a) && AllFrames(b)
    ensures AllFrames(a + b)
  {
    forall k | 0 <= k < |a| + |b|
      ensures IsFrame((a + b)[k])
    {
      if k >= |a| {
        assert (a + b)[k] == b[k - |a|];
      }
    }
  }

  lemma TextAppend(b: string, c: string, f1: seq<string>, r1: string, f2: seq<string>, r2: string)
    requires Concat(f1) + r1 == b
    requires Concat(f2) + r2 == r1 + c
    ensures Concat(f1 + f2) + r2 == b + c
  {
    ConcatAppend(f1, f2);
    calc {
      Concat(f1 + f2) + r2;
      (Concat(f1) + Concat(f2)) + r2;
      Concat(f1) + (Concat(f2) + r2);
      Concat(f1) + (r1 + c);
      (Concat(f1) + r1) + c;
    }
  }

  /** Draining `b + c` is draining `b`, then draining what it left followed by `c`. */
  lemma DrainAppend(b: string, c: string)
    ensures var d1 := Drain(b);
            var d2 := Drain(d1.rest + c);
            Drain(b + c) == Drained(d1.frames + d2.frames, d2.rest)
  {
    var d1 := Drain(b);
    var d2 := Drain(d1.rest + c);
    DrainIsFrames(b);
    DrainIsFrames(d1.rest + c);
    TextAppend(b, c, d1.frames, d1.rest, d2.frames, d2.rest);
    AllFramesAppend(d1.frames, d2.frames);
    DrainUnique(b + c, d1.frames + d2.frames, d2.rest);
  }

  /** One event per cut frame, in cut order. */
  function CreateMessages(frames: seq<string>): (messages: seq<EventMessage>) {
    seq(|frames|, k requires 0 <= k < |frames| => CreateFromRawMessage(frames[k]))
  }

  lemma CreateMessagesAppend(a: seq<string>, b: seq<string>)
    ensures CreateMessages(a + b) == CreateMessages(a) + CreateMessages(b)
  {
    var whole, parts := CreateMessages(a + b), CreateMessages(a) + CreateMessages(b);
    assert |whole| == |parts|;
    forall k | 0 <= k < |whole|
      ensures whole[k] == parts[k]
    {
      if k < |a| {
        assert (a + b)[k] == a[k];
      } else {
        assert (a + b)[k] == b[k - |a|];
      }
    }
  }

  /** The events extracted from a cache and the cache left behind. */
  datatype Extraction = Extraction(messages: seq<EventMessage>, cache: string)

  /** `ExtractCompleteMessageFromCache`, forced to a list: the cache it leaves holds
      no separator, and it yields at least one event when there was a separator. */
  function ExtractCompleteMessageFromCache(cache: string): (r: Extraction)
    ensures !HasSeparator(r.cache)
    ensures HasSeparator(cache) ==> |r.messages| > 0
  {
    var d := Drain(cache);
    DrainIsFrames(cache);
    Extraction(CreateMessages(d.frames), d.rest)
  }

  /** The cache an extraction leaves is the tail of the cache it was given. */
  lemma ExtractKeepsSuffix(cache: string)
    ensures var r := ExtractCompleteMessageFromCache(cache);
            |r.cache| <= |cache| && cache[|cache| - |r.cache|..] == r.cache
  {
  }

  /** The loop of `ExtractCompleteMessageFromCache` stops, yielding nothing and
      leaving the cache as it is, when `TryExtractOneMessage` fails, which is when
      the cache holds no separator. */
  lemma ExtractLoopStops(cache: string)
    requires !HasSeparator(cache)
    ensures TryExtractOneMessage(cache).None?
    ensures ExtractCompleteMessageFromCache(cache) == Extraction([], cache)
  {
  }

  /** Otherwise the loop yields the event of `TryExtractOneMessage` first, then the
      events of the cache that call left behind. */
  lemma ExtractLoopContinues(cache: string)
    requires HasSeparator(cache)
    ensures TryExtractOneMessage(cache).Some?
    ensures var one := TryExtractOneMessage(cache).value;
            var more := ExtractCompleteMessageFromCache(one.cache);
            ExtractCompleteMessageFromCache(cache) == Extraction([one.message] + more.messages, more.cache)
  {
    var cut := TryCutFrame(cache).value;
    var d := Drain(cut.rest);
    assert Drain(cache) == Drained([cut.frame] + d.frames, d.rest);
    CreateMessagesAppend([cut.frame], d.frames);
    assert CreateMessages([cut.frame]) == [CreateFromRawMessage(cut.frame)];
    assert TryExtractOneMessage(cache).value == Extracted(CreateFromRawMessage(cut.frame), cut.rest);
  }

  /** Alternating `AddMessagePart` with a full extraction, one chunk at a time. */
  function Feed(cache: string, chunks: seq<string>): Extraction
    decreases |chunks|
  {
    if |chunks| == 0 then Extraction([], cache)
    else
      var first := ExtractCompleteMessageFromCache(AddMessagePart(cache, chunks[0]));
      var more := Feed(first.cache, chunks[1..]);
      Extraction(first.messages + more.messages, more.cache)
  }

  /** Extracting from `b + c` is extracting from `b`, then extracting from what
      that left followed by `c`. */
  lemma ExtractAppend(b: string, c: string)
    ensures var first := ExtractCompleteMessageFromCache(b);
            var more := ExtractCompleteMessageFromCache(first.cache + c);
            ExtractCompleteMessageFromCache(b + c)
            == Extraction(first.messages + more.messages, more.cache)
  {
    var d1 := Drain(b);
    var d2 := Drain(d1.rest + c);
    DrainAppend(b, c);
    CreateMessagesAppend(d1.frames, d2.frames);
  }

  /** Extraction does not depend on how the stream was chunked: feeding the chunks
      one by one yields the events and the leftover cache of adding their
      concatenation at once and extracting once. The cache must start drained (it
      always is between two chunks) unless at least one chunk is fed. */
  lemma {:induction false} ChunkingInvariance(cache: string, chunks: seq<string>)
    requires !HasSeparator(cache) || |chunks| > 0
    ensures Feed(cache, chunks)
            == ExtractCompleteMessageFromCache(AddMessagePart(cache, Concat(chunks)))
    decreases |chunks|
  {
    if |chunks| == 0 {
      assert AddMessagePart(cache, Concat(chunks)) == cache;
    } else {
      var head, tail := chunks[0], chunks[1..];
      var first := ExtractCompleteMessageFromCache(AddMessagePart(cache, head));
      var more := Feed(first.cache, tail);
      assert Feed(cache, chunks) == Extraction(first.messages + more.messages, more.cache);
      ChunkingInvariance(first.cache, tail);
      ExtractAppend(cache + head, Concat(tail));
      assert Concat(chunks) == head + Concat(tail);
      AppendAssociates(cache, head, Concat(tail));
    }
  }

  /** Two chunkings of the same text yield the same events and the same cache. */
  lemma ChunkingsAgree(cache: string, chunks: seq<string>, otherChunks: seq<string>)
    requires Concat(chunks) == Concat(otherChunks)
    requires !HasSeparator(cache) || (|chunks| > 0 && |otherChunks| > 0)
    ensures Feed(cache, chunks) == Feed(cache, otherChunks)
  {
    ChunkingInvariance(cache, chunks);
    ChunkingInvariance(cache, otherChunks);
  }
}
