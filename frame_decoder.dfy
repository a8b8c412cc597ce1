/**
 * The streaming frame extractor of `processHealthData`: the accumulated
 * text is cut repeatedly at the first `{` and the first `}`.  `Extract`
 * describes one run of that loop on a given buffer; the buffer method in
 * the service follows it step by step.
 */
module FrameDecoder {
  import opened Text

  /** Past this many characters the buffer is thrown away. */
  const BufferCap: nat := 2000

  /** One loop iteration that emitted a frame: the noise before its `{`, and the frame itself. */
  datatype Piece = Piece(skipped: string, frame: string)

  /**
   * A whole run of the loop: the frames it emitted, the text it dropped
   * when it stopped at a `}` lying before the first `{`, and what it left.
   */
  datatype Drain = Drain(pieces: seq<Piece>, dropped: string, rest: string)

  /**
   * The loop guard `accumulated.contains("{") && accumulated.contains("}")`,
   * written as Kotlin's `contains` is defined: `indexOf(...) >= 0`.
   */
  predicate HasBoth(s: string) {
    IndexOf(s, '{') >= 0 && IndexOf(s, '}') >= 0
  }

  /** The guard holds exactly when the text holds both braces. */
  lemma HasBothMeansBothBraces(s: string)
    ensures HasBoth(s) <==> '{' in s && '}' in s
  {
    IndexOfIsFirst(s, '{');
    IndexOfIsFirst(s, '}');
  }

  function Extract(acc: string): Drain
    decreases |acc|
  {
    if HasBoth(acc) then
      var start := IndexOf(acc, '{');
      var end := IndexOf(acc, '}') + 1;
      if end > start then
        var tail := Extract(acc[end..]);
        Drain([Piece(acc[..start], acc[start..end])] + tail.pieces, tail.dropped, tail.rest)
      else
        Drain([], acc[..start], acc[start..])
    else
      Drain([], [], acc)
  }

  /** Where one loop iteration cuts: the first `{`, and one past the first `}`. */
  lemma Cuts(acc: string)
    requires HasBoth(acc)
    ensures var start, end := IndexOf(acc, '{'), IndexOf(acc, '}') + 1;
      0 <= start < |acc| && 0 < end <= |acc| && acc[start] == '{' && acc[end - 1] == '}'
  {
  }

  /** Neither cut has an earlier brace of its kind before it. */
  lemma CutsAreFirst(acc: string)
    requires HasBoth(acc)
    ensures var start, end := IndexOf(acc, '{'), IndexOf(acc, '}') + 1;
      0 <= start < |acc| && 0 < end <= |acc|
      && '{' !in acc[..start] && '}' !in acc[..end - 1]
  {
    IndexOfIsFirst(acc, '{');
    IndexOfIsFirst(acc, '}');
    var start, end := IndexOf(acc, '{'), IndexOf(acc, '}') + 1;
    assert forall j :: 0 <= j < start ==> acc[..start][j] == acc[j];
    assert forall j :: 0 <= j < end - 1 ==> acc[..end - 1][j] == acc[j];
  }

  /** The two ways one iteration can end the loop, each emitting nothing. */
  lemma ExtractHalts(acc: string)
    ensures !HasBoth(acc) ==> Extract(acc) == Drain([], [], acc)
    ensures HasBoth(acc) && IndexOf(acc, '}') + 1 <= IndexOf(acc, '{') ==>
      0 <= IndexOf(acc, '{') && Extract(acc) == Drain([], acc[..IndexOf(acc, '{')], acc[IndexOf(acc, '{')..])
  {
    if HasBoth(acc) { Cuts(acc); }
  }

  function Flatten(pieces: seq<Piece>): string {
    if pieces == [] then [] else pieces[0].skipped + pieces[0].frame + Flatten(pieces[1..])
  }

  /** The frames handed to `parseHealthData`, in order. */
  function FramesOf(pieces: seq<Piece>): (fs: seq<string>)
    ensures |fs| == |pieces|
    ensures forall i :: 0 <= i < |pieces| ==> fs[i] == pieces[i].frame
  {
    if pieces == [] then [] else [pieces[0].frame] + FramesOf(pieces[1..])
  }

  /**
   * A frame starts with `{`, ends with `}` and holds no other `}`; the text
   * skipped before it holds neither brace, so the frame runs from the first
   * `{` to the first `}` of what was left.
   */
  predicate WellFormed(p: Piece) {
    |p.frame| >= 2 && p.frame[0] == '{' && p.frame[|p.frame| - 1] == '}'
    && '}' !in p.frame[..|p.frame| - 1]
    && '{' !in p.skipped && '}' !in p.skipped
  }

  /** Every emitted frame is the leftmost `{ ... }` of the text that remained. */
  lemma {:induction false} ExtractFramesWellFormed(acc: string)
    ensures forall i :: 0 <= i < |Extract(acc).pieces| ==> WellFormed(Extract(acc).pieces[i])
    decreases |acc|
  {
    if HasBoth(acc) {
      var start := IndexOf(acc, '{');
      var end := IndexOf(acc, '}') + 1;
      Cuts(acc);
      CutsAreFirst(acc);
      if end > start {
        ExtractFramesWellFormed(acc[end..]);
        var p := Piece(acc[..start], acc[start..end]);
        assert p.frame[..|p.frame| - 1] == acc[start..end - 1];
        assert acc[..end - 1] == acc[..start] + acc[start..end - 1];
        assert WellFormed(p);
      }
    }
  }

  /**
   * Nothing is lost or reordered: the skipped noise, the frames, the dropped
   * prefix and the remaining buffer put back together give the input.
   */
  lemma {:induction false} ExtractPreservesText(acc: string)
    ensures Flatten(Extract(acc).pieces) + Extract(acc).dropped + Extract(acc).rest == acc
    decreases |acc|
  {
    ExtractHalts(acc);
    if HasBoth(acc) && IndexOf(acc, '}') + 1 > IndexOf(acc, '{') {
      var start, end := IndexOf(acc, '{'), IndexOf(acc, '}') + 1;
      Cuts(acc);
      var tail := Extract(acc[end..]);
      var head := Piece(acc[..start], acc[start..end]);
      ExtractTakesFirst(acc);
      ExtractPreservesText(acc[end..]);
      FlattenCons(head, tail.pieces);
      Split3(acc, start, end);
      calc {
        Flatten(Extract(acc).pieces) + Extract(acc).dropped + Extract(acc).rest;
        Flatten([head] + tail.pieces) + tail.dropped + tail.rest;
        acc[..start] + acc[start..end] + Flatten(tail.pieces) + tail.dropped + tail.rest;
        { Associative3(acc[..end], Flatten(tail.pieces), tail.dropped, tail.rest); }
        acc[..end] + (Flatten(tail.pieces) + tail.dropped + tail.rest);
        acc[..end] + acc[end..];
        acc;
      }
    } else if HasBoth(acc) {
      Split3(acc, IndexOf(acc, '{'), |acc|);
    }
  }

  /** One iteration that emits a frame: the first piece, then whatever the rest of the text yields. */
  lemma ExtractTakesFirst(acc: string)
    requires HasBoth(acc) && IndexOf(acc, '}') + 1 > IndexOf(acc, '{')
    ensures var start, end := IndexOf(acc, '{'), IndexOf(acc, '}') + 1;
      0 <= start < end <= |acc|
      && Extract(acc) == Drain([Piece(acc[..start], acc[start..end])] + Extract(acc[end..]).pieces,
                               Extract(acc[end..]).dropped, Extract(acc[end..]).rest)
  {
    Cuts(acc);
    var start, end := IndexOf(acc, '{'), IndexOf(acc, '}') + 1;
    var tail := Extract(acc[end..]);
    assert Extract(acc) == Drain([Piece(acc[..start], acc[start..end])] + tail.pieces, tail.dropped, tail.rest);
  }

  lemma Split3(s: string, i: nat, j: nat)
    requires i <= j <= |s|
    ensures s[..i] + s[i..j] == s[..j] && s[..j] + s[j..] == s
  {
  }

  lemma FlattenCons(p: Piece, ps: seq<Piece>)
    ensures Flatten([p] + ps) == p.skipped + p.frame + Flatten(ps)
  {
    assert ([p] + ps)[1..] == ps;
  }

  lemma Associative3(a: string, b: string, c: string, d: string)
    ensures a + b + c + d == a + (b + c + d)
  {
  }

  /**
   * How the loop stops: either no longer holding both braces, having dropped
   * nothing; or at a `}` that came before the first `{`, having dropped the
   * text before that `{` (which contains the stray `}`) and kept the rest.
   */
  lemma {:induction false} ExtractStops(acc: string)
    ensures var d := Extract(acc);
      (d.dropped == [] && !('{' in d.rest && '}' in d.rest))
      || (d.dropped != [] && '{' !in d.dropped && '}' in d.dropped && d.rest != [] && d.rest[0] == '{')
    decreases |acc|
  {
    HasBothMeansBothBraces(acc);
    if HasBoth(acc) {
      var start := IndexOf(acc, '{');
      var end := IndexOf(acc, '}') + 1;
      Cuts(acc);
      CutsAreFirst(acc);
      if end > start {
        ExtractStops(acc[end..]);
      } else {
        assert acc[end - 1] == '}' && acc[..start][end - 1] == '}';
      }
    }
  }

  /** The remaining buffer is a suffix of the input, so it keeps every property of the input's characters. */
  lemma ExtractRestIsSuffix(acc: string)
    ensures |Extract(acc).rest| <= |acc|
    ensures Extract(acc).rest == acc[|acc| - |Extract(acc).rest|..]
  {
    var d := Extract(acc);
    ExtractPreservesText(acc);
    var pre := Flatten(d.pieces) + d.dropped;
    assert pre + d.rest == acc;
    assert acc[|pre|..] == d.rest;
  }

  /** The buffer after one call that raised no exception. */
  function NextBuffer(buf: string, data: string): string {
    var chunk := Sanitize(data);
    if chunk == [] then buf
    else
      var rest := Extract(buf + chunk).rest;
      if |rest| > BufferCap then [] else rest
  }

  /**
   * The buffer invariant: printable characters only, and (unless the chunk
   * was empty after trim and filter, which leaves the buffer untouched) at
   * most `BufferCap` of them.
   */
  lemma NextBufferInvariant(buf: string, data: string)
    ensures Sanitize(data) == [] ==> NextBuffer(buf, data) == buf
    ensures Sanitize(data) != [] ==> |NextBuffer(buf, data)| <= BufferCap
    ensures AllPrintable(buf) ==> AllPrintable(NextBuffer(buf, data))
  {
    var chunk := Sanitize(data);
    if chunk != [] && AllPrintable(buf) {
      var acc := buf + chunk;
      ConcatPrintable(buf, chunk);
      ExtractRestIsSuffix(acc);
      SuffixPrintable(acc, |acc| - |Extract(acc).rest|);
    }
  }

  lemma ConcatPrintable(a: string, b: string)
    requires AllPrintable(a) && AllPrintable(b)
    ensures AllPrintable(a + b)
  {
    forall i | 0 <= i < |a + b| ensures IsPrintable((a + b)[i]) {
      if i >= |a| { assert (a + b)[i] == b[i - |a|]; }
    }
  }

  lemma SuffixPrintable(a: string, k: nat)
    requires AllPrintable(a) && k <= |a|
    ensures AllPrintable(a[k..])
  {
    forall i | 0 <= i < |a| - k ensures IsPrintable(a[k..][i]) {
      assert a[k..][i] == a[k + i];
    }
  }

  /**
   * The converse of `ExtractFramesWellFormed`: noise free of braces, then
   * `{`, a body without `}`, and `}` is always taken as the first frame,
   * whatever follows; so concatenated frames come out one by one.
   */
  lemma ExtractTakesLeftmostFrame(noise: string, body: string, more: string)
    requires '{' !in noise && '}' !in noise && '}' !in body
    ensures var d := Extract(noise + "{" + body + "}" + more);
      d.pieces == [Piece(noise, "{" + body + "}")] + Extract(more).pieces
      && d.dropped == Extract(more).dropped && d.rest == Extract(more).rest
  {
    var frame := "{" + body + "}";
    var acc := noise + frame + more;
    assert acc == noise + "{" + body + "}" + more;
    assert acc[|noise|] == '{' && acc[|noise| + |body| + 1] == '}';
    assert acc[..|noise|] == noise;
    assert acc[..|noise| + |body| + 1] == noise + "{" + body;
    IndexOfAt(acc, '{', |noise|);
    IndexOfAt(acc, '}', |noise| + |body| + 1);
    assert acc[|noise|..|noise| + |frame|] == frame;
    assert acc[|noise| + |frame|..] == more;
  }

  /**
   * A `}` that comes before the first `{` stops the loop at once, even when
   * a complete frame follows: the text before the `{` is dropped and the
   * frame stays in the buffer until the next chunk arrives.
   */
  lemma StrayCloseDefersFrame(noise: string, more: string)
    requires '{' !in noise && '}' in noise
    ensures Extract(noise + "{" + more) == Drain([], noise, "{" + more)
  {
    var acc := noise + "{" + more;
    assert acc[|noise|] == '{' && acc[..|noise|] == noise;
    IndexOfAt(acc, '{', |noise|);
    IndexOfIsFirst(noise, '}');
    var k := IndexOf(noise, '}');
    assert forall j :: 0 <= j < k ==> noise[..k][j] == noise[j];
    assert acc[k] == '}' && acc[..k] == noise[..k];
    IndexOfAt(acc, '}', k);
    assert acc[|noise|..] == "{" + more;
  }
}
