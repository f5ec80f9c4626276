/** The header/body read loop as a function of the bytes received so far. */
module Stream {
  import opened Bytes
  import opened Codec

  /** `frames` were read completely; `rest` is an incomplete frame, or starts with a refused header. */
  datatype Reading = Reading(frames: seq<Bytes>, rest: Bytes, refused: bool)

  function Parse(s: Bytes): Reading
    decreases |s|
  {
    if |s| < HEADER_SIZE then Reading([], s, false)
    else
      var head := DecodeHeader(s[..HEADER_SIZE]);
      if head.Err? then Reading([], s, true)
      else
        var end := HEADER_SIZE + head.header.payloadSize;
        if |s| < end then Reading([], s, false)
        else
          var tail := Parse(s[end..]);
          tail.(frames := [s[..end]] + tail.frames)
  }

  ghost predicate AllLegal(frames: seq<Bytes>) {
    forall f :: f in frames ==> Legal(f)
  }

  /** One legal frame in front is read first. */
  lemma ParseFirst(first: Bytes, s: Bytes)
    requires Legal(first)
    ensures Parse(first + s) == Parse(s).(frames := [first] + Parse(s).frames)
  {
    var all := first + s;
    assert all[..HEADER_SIZE] == first[..HEADER_SIZE];
    assert all[..|first|] == first && all[|first|..] == s;
  }

  /** Whatever is read re-encodes to the very bytes it was read from. */
  lemma {:induction false} ParseIsCanonical(s: Bytes)
    ensures s == Flatten(Parse(s).frames) + Parse(s).rest
    ensures AllLegal(Parse(s).frames)
    decreases |s|
  {
    if HEADER_SIZE <= |s| && DecodeHeader(s[..HEADER_SIZE]).Ok? {
      var end := HEADER_SIZE + DecodeHeader(s[..HEADER_SIZE]).header.payloadSize;
      if end <= |s| {
        var first, more := s[..end], s[end..];
        assert s == first + more;
        assert first[..HEADER_SIZE] == s[..HEADER_SIZE];
        ParseFirst(first, more);
        ParseIsCanonical(more);
        FlattenCons(first, Parse(more).frames);
        ConcatAssoc(first, Flatten(Parse(more).frames), Parse(more).rest);
      }
    }
  }

  /** Everything before `s` was read without remainder, so reading goes on as if it started at `s`. */
  lemma {:induction false} ParseContinues(frames: seq<Bytes>, s: Bytes, all: Bytes)
    requires AllLegal(frames) && all == Flatten(frames) + s
    ensures Parse(all) == Parse(s).(frames := frames + Parse(s).frames)
    decreases |frames|
  {
    if frames == [] {
      assert all == s && frames + Parse(s).frames == Parse(s).frames;
    } else {
      var first, more := frames[0], frames[1..];
      assert frames == [first] + more && first in frames;
      var rest := Flatten(more) + s;
      FlattenCons(first, more);
      ConcatAssoc(first, Flatten(more), s);
      ConcatAssoc([first], more, Parse(s).frames);
      ParseContinues(more, s, rest);
      ParseFirst(first, rest);
    }
  }

  /** Reading back a concatenation of legal frames returns those frames and consumes every byte. */
  lemma RoundTrip(frames: seq<Bytes>)
    requires AllLegal(frames)
    ensures Parse(Flatten(frames)) == Reading(frames, [], false)
  {
    ParseContinues(frames, [], Flatten(frames));
    assert Flatten(frames) + [] == Flatten(frames) && frames + [] == frames;
  }

  /** A stream cut anywhere inside legal frames is never refused, and yields a prefix of them. */
  lemma {:induction false} ParseOfCutStream(frames: seq<Bytes>, cut: Bytes)
    requires AllLegal(frames) && cut <= Flatten(frames)
    ensures !Parse(cut).refused
    ensures Parse(cut).frames <= frames
    decreases |frames|
  {
    if frames != [] {
      var first, more := frames[0], frames[1..];
      assert frames == [first] + more;
      FlattenCons(first, more);
      PrefixSplit(cut, first, Flatten(more));
      if |first| <= |cut| {
        ParseFirst(first, cut[|first|..]);
        ParseOfCutStream(more, cut[|first|..]);
      } else {
        assert Legal(first) by { assert first in frames; }
        assert HEADER_SIZE <= |cut| ==> cut[..HEADER_SIZE] == first[..HEADER_SIZE];
        assert Parse(cut) == Reading([], cut, false);
      }
    }
  }

  /** Concatenations of legal frames decode uniquely: a prefix of the bytes is a prefix of the frames. */
  lemma {:induction false} FlattenReflectsPrefix(a: seq<Bytes>, b: seq<Bytes>)
    requires AllLegal(a) && AllLegal(b) && Flatten(a) <= Flatten(b)
    ensures a <= b
  {
    RoundTrip(a);
    ParseOfCutStream(b, Flatten(a));
  }

  /** The data payloads of a stream of legal frames come back in order, keepalives or not. */
  lemma PayloadsRoundTrip(frames: seq<Bytes>, cut: Bytes)
    requires AllLegal(frames) && cut <= Flatten(frames)
    ensures DataOf(Parse(cut).frames) <= DataOf(frames)
    ensures cut == Flatten(frames) ==> DataOf(Parse(cut).frames) == DataOf(frames)
  {
    ParseOfCutStream(frames, cut);
    DataOfPrefix(Parse(cut).frames, frames);
    if cut == Flatten(frames) {
      RoundTrip(frames);
    }
  }
}
