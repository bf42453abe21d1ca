// Newline-delimited framing: an incremental decoder that must not care how its
// bytes were chopped up (crates/caw-ipc/src/frame.rs).

module LineFraming {
  import opened Bytes

  const NEWLINE: byte := 10
  const RETURN: byte := 13

  datatype FrameError = Json | TooLong

  // Reading one line as a message; what JSON makes of it is not modelled.
  type Parser<!T> = seq<byte> -> Option<T>

  predicate IsWhitespace(b: byte) {
    b in {9, 10, 12, 13, 32}
  }

  predicate Blank(line: seq<byte>) {
    forall i :: 0 <= i < |line| ==> IsWhitespace(line[i])
  }

  function WithoutReturn(line: seq<byte>): seq<byte> {
    if line != [] && line[|line| - 1] == RETURN then line[..|line| - 1] else line
  }

  // What one line yields: nothing when blank, else the message or an error.
  function Yield<T>(parse: Parser<T>, line: seq<byte>): (r: seq<Result<T, FrameError>>)
    ensures |r| <= 1
  {
    var text := WithoutReturn(line);
    if Blank(text) then []
    else
      var message := parse(text);
      [if message.Some? then Ok(message.value) else Err(Json)]
  }

  // The first newline, or the length when there is none.
  function Newline(s: seq<byte>): (i: nat)
    ensures i <= |s|
    ensures i < |s| ==> s[i] == NEWLINE
    ensures forall j :: 0 <= j < i ==> s[j] != NEWLINE
  {
    if s == [] || s[0] == NEWLINE then 0 else 1 + Newline(s[1..])
  }

  // ---- the reference: split the whole stream at its newlines ---------------------------

  function Lines(s: seq<byte>): seq<seq<byte>> {
    var i := Newline(s);
    if i == |s| then [] else [s[..i]] + Lines(s[i + 1..])
  }

  function Tail(s: seq<byte>): (t: seq<byte>)
    ensures |t| <= |s|
  {
    var i := Newline(s);
    if i == |s| then s else Tail(s[i + 1..])
  }

  function YieldAll<T>(parse: Parser<T>, lines: seq<seq<byte>>): seq<Result<T, FrameError>> {
    if lines == [] then [] else Yield(parse, lines[0]) + YieldAll(parse, lines[1..])
  }

  function Batch<T>(parse: Parser<T>, s: seq<byte>): seq<Result<T, FrameError>> {
    YieldAll(parse, Lines(s))
  }

  predicate Within(limit: nat, s: seq<byte>) {
    |Tail(s)| <= limit && forall i :: 0 <= i < |Lines(s)| ==> |Lines(s)[i]| <= limit
  }

  // ---- the decoder --------------------------------------------------------------------

  // One call of `next`: the buffer it leaves and what it returns.
  function Next<T>(parse: Parser<T>, limit: nat, buf: seq<byte>): (r: (seq<byte>, Option<Result<T, FrameError>>))
    ensures r.1.Some? ==> |r.0| < |buf|
    decreases |buf|
  {
    var i := Newline(buf);
    if i == |buf| then
      if |buf| > limit then ([], Some(Err(TooLong))) else (buf, None)
    else
      var yielded := Yield(parse, buf[..i]);
      if yielded == [] then Next(parse, limit, buf[i + 1..]) else (buf[i + 1..], Some(yielded[0]))
  }

  // Calling `next` until it has nothing more.
  function Drain<T>(parse: Parser<T>, limit: nat, buf: seq<byte>): (seq<byte>, seq<Result<T, FrameError>>)
    decreases |buf|
  {
    var (rest, r) := Next(parse, limit, buf);
    if r.None? then (rest, [])
    else
      var (last, more) := Drain(parse, limit, rest);
      (last, [r.value] + more)
  }

  // Each chunk is appended and drained.
  function Buffered<T>(parse: Parser<T>, limit: nat, chunks: seq<seq<byte>>): seq<byte> {
    if chunks == [] then []
    else Drain(parse, limit, Buffered(parse, limit, chunks[..|chunks| - 1]) + chunks[|chunks| - 1]).0
  }

  function Results<T>(parse: Parser<T>, limit: nat, chunks: seq<seq<byte>>): seq<Result<T, FrameError>> {
    if chunks == [] then []
    else
      Results(parse, limit, chunks[..|chunks| - 1])
      + Drain(parse, limit, Buffered(parse, limit, chunks[..|chunks| - 1]) + chunks[|chunks| - 1]).1
  }

  function Joined(chunks: seq<seq<byte>>): seq<byte> {
    if chunks == [] then [] else Joined(chunks[..|chunks| - 1]) + chunks[|chunks| - 1]
  }

  // ---- they agree -------------------------------------------------------------------------

  lemma BatchStep<T>(parse: Parser<T>, s: seq<byte>)
    requires Newline(s) < |s|
    ensures var rest := s[Newline(s) + 1..];
            Batch(parse, s) == Yield(parse, s[..Newline(s)]) + Batch(parse, rest) && Tail(s) == Tail(rest)
  {
    hide Yield, Lines, Tail;
    LinesStep(s);
    assert Lines(s)[1..] == Lines(s[Newline(s) + 1..]);
  }

  lemma DrainStep<T>(parse: Parser<T>, limit: nat, buf: seq<byte>)
    requires Newline(buf) < |buf|
    ensures var (rest, results) := Drain(parse, limit, buf[Newline(buf) + 1..]);
            Drain(parse, limit, buf) == (rest, Yield(parse, buf[..Newline(buf)]) + results)
  {
    hide Yield;
    var yielded := Yield(parse, buf[..Newline(buf)]);
    var results := Drain(parse, limit, buf[Newline(buf) + 1..]).1;
    if yielded == [] {
      assert yielded + results == results;
    } else {
      assert yielded == [yielded[0]];
    }
  }

  lemma DrainTail<T>(parse: Parser<T>, limit: nat, buf: seq<byte>)
    requires Newline(buf) == |buf|
    ensures Drain(parse, limit, buf) == if |buf| <= limit then (buf, []) else ([], [Err(TooLong)])
  {
    assert Next(parse, limit, []) == ([], None);
    assert Drain(parse, limit, []) == ([], []);
    var refusal: seq<Result<T, FrameError>> := [Err(TooLong)];
    assert refusal + [] == refusal;
  }

  lemma {:induction false} DrainIsBatch<T>(parse: Parser<T>, limit: nat, buf: seq<byte>)
    ensures Drain(parse, limit, buf) ==
              if |Tail(buf)| <= limit then (Tail(buf), Batch(parse, buf))
              else ([], Batch(parse, buf) + [Err(TooLong)])
    decreases |buf|
  {
    hide Yield, Drain, Next;
    var i := Newline(buf);
    if i == |buf| {
      DrainTail(parse, limit, buf);
      var refusal: seq<Result<T, FrameError>> := [Err(TooLong)];
      assert [] + refusal == refusal;
    } else {
      var rest, yielded := buf[i + 1..], Yield(parse, buf[..i]);
      DrainIsBatch(parse, limit, rest);
      DrainStep(parse, limit, buf);
      BatchStep(parse, buf);
      hide Batch, Tail;
      var batch := Batch(parse, rest);
      assert yielded + (batch + [Err(TooLong)]) == (yielded + batch) + [Err(TooLong)];
    }
  }

  lemma LinesStep(s: seq<byte>)
    requires Newline(s) < |s|
    ensures Lines(s) == [s[..Newline(s)]] + Lines(s[Newline(s) + 1..]) && Tail(s) == Tail(s[Newline(s) + 1..])
  {
    hide Newline;
  }

  lemma LinesOfTail(s: seq<byte>)
    requires Newline(s) == |s|
    ensures Lines(s) == [] && Tail(s) == s
  {
  }

  // Splitting can stop anywhere and go on with the unfinished line.
  lemma {:induction false} SplitResumes(a: seq<byte>, b: seq<byte>)
    ensures Lines(a + b) == Lines(a) + Lines(Tail(a) + b)
    ensures Tail(a + b) == Tail(Tail(a) + b)
    decreases |a|
  {
    hide Lines, Tail;
    var i := Newline(a);
    if i == |a| {
      LinesOfTail(a);
      assert [] + Lines(a + b) == Lines(a + b);
    } else {
      var rest := a[i + 1..];
      assert (a + b)[..i] == a[..i] && (a + b)[i + 1..] == rest + b;
      NewlineAt(a + b, i);
      LinesStep(a);
      LinesStep(a + b);
      SplitResumes(rest, b);
      Joins([a[..i]], Lines(rest), Lines(Tail(rest) + b));
    }
  }

  lemma BatchResumes<T>(parse: Parser<T>, a: seq<byte>, b: seq<byte>)
    ensures Batch(parse, a + b) == Batch(parse, a) + Batch(parse, Tail(a) + b)
  {
    hide Lines, Tail, Yield, YieldAll;
    SplitResumes(a, b);
    YieldsAdd(parse, Lines(a), Lines(Tail(a) + b));
  }

  lemma NewlineAt(s: seq<byte>, i: nat)
    requires i < |s| && s[i] == NEWLINE && forall j :: 0 <= j < i ==> s[j] != NEWLINE
    ensures Newline(s) == i
  {
    var k := Newline(s);
  }

  lemma {:induction false} YieldsAdd<T>(parse: Parser<T>, a: seq<seq<byte>>, b: seq<seq<byte>>)
    ensures YieldAll(parse, a + b) == YieldAll(parse, a) + YieldAll(parse, b)
  {
    hide Yield;
    if a == [] {
      assert a + b == b;
    } else {
      YieldsAdd(parse, a[1..], b);
      assert (a + b)[1..] == a[1..] + b;
      var head, more, last := Yield(parse, a[0]), YieldAll(parse, a[1..]), YieldAll(parse, b);
      Joins(head, more, last);
    }
  }

  // What a prefix leaves unfinished is the start of a line or of the tail.
  lemma {:induction false} PrefixWithin(limit: nat, a: seq<byte>, b: seq<byte>)
    requires Within(limit, a + b)
    ensures Within(limit, a)
  {
    SplitResumes(a, b);
    forall i | 0 <= i < |Lines(a)| ensures |Lines(a)[i]| <= limit {
      assert Lines(a)[i] == Lines(a + b)[i];
    }
    var t := Tail(a);
    NoNewlineInTail(a);
    var j := Newline(t + b);
    assert j >= |t|;
    if j == |t + b| {
      assert Tail(t + b) == t + b;
    } else {
      assert Lines(t + b)[0] == (t + b)[..j];
      assert Lines(a + b)[|Lines(a)|] == (t + b)[..j];
    }
  }

  lemma {:induction false} NoNewlineInTail(s: seq<byte>)
    ensures forall j :: 0 <= j < |Tail(s)| ==> Tail(s)[j] != NEWLINE
    ensures Tail(Tail(s)) == Tail(s)
    decreases |s|
  {
    var i := Newline(s);
    if i < |s| { NoNewlineInTail(s[i + 1..]); }
  }

  // After every chunk, what follows the last newline is within the limit.
  predicate Short(limit: nat, chunks: seq<seq<byte>>) {
    forall i :: 0 <= i <= |chunks| ==> |Tail(Joined(chunks[..i]))| <= limit
  }

  lemma ShortBefore(limit: nat, chunks: seq<seq<byte>>)
    requires chunks != []
    ensures Short(limit, chunks) <==> Short(limit, chunks[..|chunks| - 1]) && |Tail(Joined(chunks))| <= limit
  {
    hide Joined, Tail;
    var before := chunks[..|chunks| - 1];
    assert chunks[..|chunks|] == chunks;
    if Short(limit, chunks) {
      forall i | 0 <= i <= |before| ensures |Tail(Joined(before[..i]))| <= limit {
        assert before[..i] == chunks[..i];
      }
    }
    if Short(limit, before) && |Tail(Joined(chunks))| <= limit {
      forall i | 0 <= i <= |chunks| ensures |Tail(Joined(chunks[..i]))| <= limit {
        if i < |chunks| { assert chunks[..i] == before[..i]; }
      }
    }
  }

  lemma {:induction false} ShortIsInvisible<T>(parse: Parser<T>, limit: nat, chunks: seq<seq<byte>>)
    requires Short(limit, chunks)
    ensures Results(parse, limit, chunks) == Batch(parse, Joined(chunks))
    ensures Buffered(parse, limit, chunks) == Tail(Joined(chunks))
  {
    hide Drain, Yield, Short, Batch, Tail;
    if chunks == [] {
      assert Batch<T>(parse, []) == [] && Tail([]) == [] by { NothingToSplit(parse); }
    } else {
      var before, last := chunks[..|chunks| - 1], chunks[|chunks| - 1];
      ShortBefore(limit, chunks);
      ShortIsInvisible(parse, limit, before);
      SplitResumes(Joined(before), last);
      BatchResumes(parse, Joined(before), last);
      DrainIsBatch(parse, limit, Tail(Joined(before)) + last);
    }
  }

  lemma {:induction false} LongIsRefused<T>(parse: Parser<T>, limit: nat, chunks: seq<seq<byte>>)
    requires !Short(limit, chunks)
    ensures Err(TooLong) in Results(parse, limit, chunks)
  {
    hide Drain, Yield, Short, Batch, Tail;
    if chunks == [] {
      EmptyIsShort(limit);
    } else {
      var before, last := chunks[..|chunks| - 1], chunks[|chunks| - 1];
      ShortBefore(limit, chunks);
      if Short(limit, before) {
        ShortIsInvisible(parse, limit, before);
        SplitResumes(Joined(before), last);
        DrainIsBatch(parse, limit, Tail(Joined(before)) + last);
      } else {
        LongIsRefused(parse, limit, before);
      }
    }
  }

  lemma EmptyIsShort(limit: nat)
    ensures Short(limit, [])
  {
    var none: seq<seq<byte>> := [];
    assert none[..0] == none;
  }

  // Draining after each chunk yields what splitting the whole stream yields
  // exactly when no chunk leaves more than the limit after its last newline.
  lemma ChoppingLaw<T>(parse: Parser<T>, limit: nat, chunks: seq<seq<byte>>)
    ensures Results(parse, limit, chunks) == Batch(parse, Joined(chunks)) <==> Short(limit, chunks)
  {
    hide Short, Results, Yield, YieldAll, Tail;
    if Short(limit, chunks) {
      ShortIsInvisible(parse, limit, chunks);
    } else {
      LongIsRefused(parse, limit, chunks);
      NeverTooLong(parse, Lines(Joined(chunks)));
    }
  }

  lemma {:induction false} WithinIsShort(limit: nat, chunks: seq<seq<byte>>)
    requires Within(limit, Joined(chunks))
    ensures Short(limit, chunks)
  {
    hide Within, Tail, Short;
    if chunks == [] {
      EmptyIsShort(limit);
    } else {
      var before := chunks[..|chunks| - 1];
      PrefixWithin(limit, Joined(before), chunks[|chunks| - 1]);
      WithinIsShort(limit, before);
      TailWithin(limit, Joined(chunks));
      ShortBefore(limit, chunks);
    }
  }

  // So a stream within the limit can be chopped any way at all: the results are
  // those of the whole, and what is held back is what follows the last newline.
  lemma ChoppingIsInvisible<T>(parse: Parser<T>, limit: nat, chunks: seq<seq<byte>>)
    requires Within(limit, Joined(chunks))
    ensures Results(parse, limit, chunks) == Batch(parse, Joined(chunks))
    ensures Buffered(parse, limit, chunks) == Tail(Joined(chunks))
  {
    hide Within, Short, Results, Buffered, Batch, Tail;
    WithinIsShort(limit, chunks);
    ShortIsInvisible(parse, limit, chunks);
  }

  lemma NothingToSplit<T>(parse: Parser<T>)
    ensures Batch(parse, []) == [] && Tail([]) == []
  {
  }

  lemma TailWithin(limit: nat, s: seq<byte>)
    requires Within(limit, s)
    ensures |Tail(s)| <= limit
  {
  }

  // And past the limit some way of chopping is noticed.
  lemma LongLinesAreNoticed<T>(parse: Parser<T>, limit: nat, s: seq<byte>)
    requires !Within(limit, s)
    ensures exists chunks :: Joined(chunks) == s && Results(parse, limit, chunks) != Batch(parse, s)
  {
    hide Within, Tail, Batch, Results;
    var cut := LongCut(limit, s);
    var chunks := [s[..cut], s[cut..]];
    assert chunks[..1] == [s[..cut]] && [s[..cut]][..0] == [];
    assert Joined(chunks[..1]) == [] + s[..cut] == s[..cut];
    assert Joined(chunks) == s[..cut] + s[cut..] == s;
    ChoppingLaw(parse, limit, chunks);
  }

  lemma {:induction false} NeverTooLong<T>(parse: Parser<T>, lines: seq<seq<byte>>)
    ensures forall i :: 0 <= i < |YieldAll(parse, lines)| ==> YieldAll(parse, lines)[i] != Err(TooLong)
  {
    if lines != [] {
      NeverTooLong(parse, lines[1..]);
      assert YieldAll(parse, lines) == Yield(parse, lines[0]) + YieldAll(parse, lines[1..]);
    }
  }

  // Just before the newline of an overlong line, or at the end.
  lemma {:induction false} LongCut(limit: nat, s: seq<byte>) returns (cut: nat)
    requires !Within(limit, s)
    ensures cut <= |s| && |Tail(s[..cut])| > limit
    decreases |s|
  {
    var i := Newline(s);
    if i == |s| {
      cut := |s|;
      assert s[..cut] == s;
    } else if i > limit {
      cut := i;
      assert Newline(s[..i]) == i;
    } else {
      var rest := s[i + 1..];
      assert !Within(limit, rest) by {
        if Within(limit, rest) {
          forall k | 0 <= k < |Lines(s)| ensures |Lines(s)[k]| <= limit {
            assert k > 0 ==> Lines(s)[k] == Lines(rest)[k - 1];
          }
        }
      }
      var c := LongCut(limit, rest);
      cut := i + 1 + c;
      assert s[..cut][i + 1..] == rest[..c];
      NewlineAt(s[..cut], i);
    }
  }

  // Whatever the stream, nothing past the limit is ever held back.
  lemma {:induction false} HeldBackWithinLimit<T>(parse: Parser<T>, limit: nat, chunks: seq<seq<byte>>)
    ensures |Buffered(parse, limit, chunks)| <= limit
  {
    hide Drain;
    if chunks != [] {
      DrainIsBatch(parse, limit, Buffered(parse, limit, chunks[..|chunks| - 1]) + chunks[|chunks| - 1]);
    }
  }
}

module DecoderMachine {
  import opened Bytes
  import opened LineFraming
  import L = LineFraming

  class Decoder<!T> {
    const parse: Parser<T>
    const limit: nat
    var buf: seq<byte>

    constructor WithLimit(parse: Parser<T>, limit: nat)
      ensures buf == [] && this.parse == parse && this.limit == limit
    {
      this.parse, this.limit, buf := parse, limit, [];
    }

    method Extend(chunk: seq<byte>)
      modifies this
      ensures buf == old(buf) + chunk
    {
      buf := buf + chunk;
    }

    method Next() returns (r: Option<Result<T, FrameError>>)
      modifies this
      ensures (buf, r) == L.Next(parse, limit, old(buf))
    {
      while true
        invariant L.Next(parse, limit, buf) == L.Next(parse, limit, old(buf))
        decreases |buf|
      {
        var newline := Newline(buf);
        if newline == |buf| {
          if |buf| > limit {
            Clear();
            return Some(Err(TooLong));
          }
          return None;
        }
        var line := WithoutReturn(buf[..newline]);
        var parsed: Option<Result<T, FrameError>> := None;
        if !Blank(line) {
          var message := parse(line);
          parsed := Some(if message.Some? then Ok(message.value) else Err(Json));
        }
        ghost var yielded := Yield(parse, buf[..newline]);
        assert yielded == if parsed.None? then [] else [parsed.value];
        buf := buf[newline + 1..];
        if parsed.Some? {
          return parsed;
        }
      }
    }

    method Clear()
      modifies this
      ensures buf == []
    {
      buf := [];
    }

    // What the daemon does with a readable socket.
    method Feed(chunk: seq<byte>) returns (results: seq<Result<T, FrameError>>)
      modifies this
      ensures (buf, results) == Drain(parse, limit, old(buf) + chunk)
    {
      Extend(chunk);
      results := [];
      ghost var whole := Drain(parse, limit, buf);
      ghost var left := whole;
      assert [] + whole.1 == whole.1;
      while true
        invariant left == Drain(parse, limit, buf) && whole == (left.0, results + left.1)
        decreases |buf|
      {
        ghost var before := left;
        var r := Next();
        if r.None? {
          assert left == (buf, []) && results + [] == results;
          return;
        }
        left := Drain(parse, limit, buf);
        assert before == (left.0, [r.value] + left.1);
        assert results + ([r.value] + left.1) == (results + [r.value]) + left.1;
        results := results + [r.value];
      }
    }
  }
}
