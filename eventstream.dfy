/**
 * The `data:` framing the `/sse/` handler writes for each event, and the
 * reading a client applies to it, per section 9.2 ("Server-sent events") of
 * the WHATWG HTML Living Standard restricted to what these frames use: one
 * `data` field per event, with one space after the colon, ended by a blank
 * line.
 */
module EventStream {
  import opened Options

  /**
   * `fmt.Fprintf(w, "data: %s\n\n", event)`: one `data` field ended by a
   * blank line. The field is a single line exactly when the payload is.
   */
  function Frame(e: string): (f: string)
    ensures |f| == |e| + 8
    ensures f[|f| - 2..] == "\n\n"
    ensures SingleLine(f[..|f| - 2]) <==> SingleLine(e)
  {
    var f := "data: " + e + "\n\n";
    assert f[..|f| - 2] == "data: " + e;
    FieldSingleLine(e);
    f
  }

  /** The `data: ` prefix holds no line break, so the field is one line exactly when the payload is. */
  lemma FieldSingleLine(e: string)
    ensures SingleLine("data: " + e) <==> SingleLine(e)
  {
    var d := "data: " + e;
    if SingleLine(e) {
      forall i | 0 <= i < |d| ensures !IsLineBreak(d[i]) {
        if i >= 6 {
          assert d[i] == e[i - 6];
        }
      }
    }
    if SingleLine(d) {
      forall i | 0 <= i < |e| ensures !IsLineBreak(e[i]) {
        assert e[i] == d[i + 6];
      }
    }
  }

  /**
   * The response body after writing each event of `es` in turn: eight bytes
   * of framing per event, and once anything is written the body ends with
   * a blank line, at an event boundary.
   */
  function Frames(es: seq<string>): (b: string)
    ensures |b| >= 8 * |es|
    ensures es != [] ==> |b| >= 2 && b[|b| - 2..] == "\n\n"
  {
    if es == [] then []
    else
      var head, rest := Frame(es[0]), Frames(es[1..]);
      var b := head + rest;
      assert rest == [] ==> b == head;
      assert rest != [] ==> b[|b| - 2..] == rest[|rest| - 2..];
      b
  }

  /** The event-stream format ends a line at CR, LF or CRLF. */
  predicate IsLineBreak(c: char)
  {
    c == '\n' || c == '\r'
  }

  /** A payload that fits on one line of the stream. */
  predicate SingleLine(e: string)
  {
    forall i :: 0 <= i < |e| ==> !IsLineBreak(e[i])
  }

  /** The length of the first line of `t`. */
  function LineEnd(t: string): (n: nat)
    ensures n <= |t|
    ensures SingleLine(t[..n])
    ensures n < |t| ==> IsLineBreak(t[n])
  {
    if t == [] || IsLineBreak(t[0]) then 0 else 1 + LineEnd(t[1..])
  }

  /**
   * The events a client reads from a stream of `data:` frames, or `None`
   * when the stream is not such a sequence of frames.
   */
  function Decode(s: string): Option<seq<string>>
    decreases |s|
  {
    if s == [] then Some([])
    else if |s| < 6 || s[..6] != "data: " then None
    else
      var line := s[6..];
      var n := LineEnd(line);
      if n + 2 <= |line| && line[n..n + 2] == "\n\n" then
        match Decode(line[n + 2..])
        case None => None
        case Some(rest) => Some([line[..n]] + rest)
      else None
  }

  lemma LineEndOfSingleLine(e: string, tail: string)
    requires SingleLine(e)
    ensures LineEnd(e + "\n" + tail) == |e|
  {
    var t := e + "\n" + tail;
    assert t[|e|] == '\n' && t[..|e|] == e;
  }

  /** A client reading the body gets back exactly the events written, in order. */
  lemma {:induction false} DecodeFrames(es: seq<string>)
    requires forall i :: 0 <= i < |es| ==> SingleLine(es[i])
    ensures Decode(Frames(es)) == Some(es)
  {
    if es != [] {
      DecodeFrame(es[0], Frames(es[1..]));
      DecodeFrames(es[1..]);
      assert [es[0]] + es[1..] == es;
    }
  }

  /** Decoding a frame followed by more of the stream yields its event, then decodes the rest. */
  lemma DecodeFrame(e: string, tail: string)
    requires SingleLine(e)
    ensures Decode(Frame(e) + tail) == match Decode(tail) case None => None case Some(rest) => Some([e] + rest)
  {
    var s := Frame(e) + tail;
    assert s == "data: " + (e + "\n" + ("\n" + tail));
    var line := s[6..];
    assert line == e + "\n" + ("\n" + tail);
    LineEndOfSingleLine(e, "\n" + tail);
    assert line[|e|..|e| + 2] == "\n\n";
    assert line[..|e|] == e;
    assert line[|e| + 2..] == tail;
  }

  /** Writing one more event extends the body by that event's frame. */
  lemma {:induction false} FramesAppend(es: seq<string>, e: string)
    ensures Frames(es + [e]) == Frames(es) + Frame(e)
  {
    if es != [] {
      assert (es + [e])[1..] == es[1..] + [e];
      FramesAppend(es[1..], e);
    }
  }
}
