/** The byte-at-a-time framer that splits a serial stream into frames at CR
    and LF and decodes each frame (src/parser.rs). `Transition` and `Run` are
    its specification on values; the `Parser` class is the object the source
    mutates, and its methods are proved against them. */
module StreamParser {
  import opened Prelude
  import opened ParseErrors
  import opened Es51986

  const CR: byte := 0x0d
  const LF: byte := 0x0a

  datatype ParserState = Idle | FoundCr

  /** The parser's state and buffer at one moment. */
  datatype Snapshot = Snapshot(state: ParserState, buf: seq<byte>)

  /** What one byte yields: the outcome of `parse_ch` and the next snapshot. */
  datatype Step = Step(outcome: Result<Option<Output>, ParseError>, next: Snapshot)

  /** What a run over several bytes yields: the collected results and the
      final snapshot. */
  datatype Trace = Trace(results: seq<Result<Output, ParseError>>, final: Snapshot)

  /** The invariant the parser keeps: at most one frame's worth of bytes is
      buffered, and nothing is buffered right after a CR. */
  predicate Settled(s: Snapshot) {
    |s.buf| <= OutputLength && (s.state == FoundCr ==> s.buf == [])
  }

  /** A byte that is neither terminator. */
  predicate IsData(c: byte) {
    c != CR && c != LF
  }

  /** `result.map(|o| Some(o))`. */
  function Framed(result: Result<Output, ParseError>): Result<Option<Output>, ParseError> {
    match result
    case Ok(o) => Ok(Some(o))
    case Err(e) => Err(e)
  }

  /** What `parse_ch` consumes one byte into, on values. */
  function Transition(s: Snapshot, ch: byte): (r: Step)
    ensures Settled(s) ==> Settled(r.next)
    ensures r.outcome.Err? ==> r.outcome.error != NoLfAfterCr
    ensures Settled(s) && r.outcome.Err? && r.outcome.error.LengthError?
      ==> r.outcome.error.len <= OutputLength + 1
  {
    match s.state
    case Idle =>
      if ch == CR then
        Step(Framed(ParseOutput(s.buf)), Snapshot(FoundCr, []))
      else if ch == LF then
        Step(Framed(ParseOutput(s.buf)), Snapshot(Idle, []))
      else
        var buf := s.buf + [ch];
        if OutputLength < |buf| then
          Step(Err(LengthError(|buf|)), Snapshot(Idle, buf[|buf| - OutputLength..]))
        else
          Step(Ok(Option.None), Snapshot(Idle, buf))
    case FoundCr =>
      if ch == LF then
        Step(Ok(Option.None), Snapshot(FoundCr, []))
      else
        Step(Ok(Option.None), Snapshot(Idle, s.buf + [ch]))
  }

  /** The results one outcome contributes: none for `Ok(None)`, else one. */
  function Emitted(outcome: Result<Option<Output>, ParseError>): seq<Result<Output, ParseError>> {
    match outcome
    case Ok(Some(o)) => [Ok(o)]
    case Ok(None) => []
    case Err(e) => [Err(e)]
  }

  /** `parse` on values: `Transition` folded over the input, collecting the
      outcomes that are not `Ok(None)`, in input order. */
  function Run(s: Snapshot, input: seq<byte>): (t: Trace)
    ensures |t.results| <= |input|
    ensures Settled(s) ==> Settled(t.final)
    ensures forall i | 0 <= i < |t.results| :: t.results[i].Err? ==> t.results[i].error != NoLfAfterCr
    decreases |input|
  {
    if input == [] then
      Trace([], s)
    else
      var step := Transition(s, input[0]);
      var rest := Run(step.next, input[1..]);
      Trace(Emitted(step.outcome) + rest.results, rest.final)
  }

  /** Chunk independence: running over `a + b` is running over `a`, then over
      `b` from where `a` left off, with the results concatenated. */
  lemma {:induction false} RunAppend(s: Snapshot, a: seq<byte>, b: seq<byte>)
    ensures var ta := Run(s, a); var tb := Run(ta.final, b);
      Run(s, a + b) == Trace(ta.results + tb.results, tb.final)
    decreases |a|
  {
    if a == [] {
      assert a + b == b;
    } else {
      var step := Transition(s, a[0]);
      assert (a + b)[0] == a[0];
      assert (a + b)[1..] == a[1..] + b;
      RunAppend(step.next, a[1..], b);
    }
  }

  /** One byte on its own. */
  lemma RunSingle(s: Snapshot, c: byte)
    ensures Run(s, [c]) == Trace(Emitted(Transition(s, c).outcome), Transition(s, c).next)
  {
    assert [c][1..] == [];
  }

  /** The last (at most) nine bytes of a sequence. */
  function Window(s: seq<byte>): seq<byte> {
    if |s| <= OutputLength then s else s[|s| - OutputLength..]
  }

  /** `n` overflow errors, each reporting the pre-trim length 10. */
  function Overflows(n: nat): (r: seq<Result<Output, ParseError>>)
    ensures |r| == n
  {
    seq(n, _ => Err(LengthError(OutputLength + 1)))
  }

  /** Running over a non-empty input: its first byte, then the rest. */
  lemma RunCons(s: Snapshot, input: seq<byte>)
    requires input != []
    ensures var step := Transition(s, input[0]); var rest := Run(step.next, input[1..]);
      Run(s, input) == Trace(Emitted(step.outcome) + rest.results, rest.final)
  {
  }

  /** A data byte in `Idle` is appended, and when that makes the buffer longer
      than nine the oldest byte is dropped with a `LengthError`. */
  lemma TransitionData(buf: seq<byte>, c: byte)
    requires |buf| <= OutputLength && IsData(c)
    ensures Transition(Snapshot(Idle, buf), c)
      == if |buf| < OutputLength then Step(Ok(Option.None), Snapshot(Idle, buf + [c]))
         else Step(Err(LengthError(OutputLength + 1)), Snapshot(Idle, (buf + [c])[1..]))
  {
  }

  /** Sliding window: data bytes in `Idle` are appended, and each one that
      would make the buffer longer than nine drops the oldest byte and emits
      its own `LengthError{len: 10}`; the buffer ends as the last nine bytes. */
  lemma {:induction false} RunData(buf: seq<byte>, d: seq<byte>)
    requires |buf| <= OutputLength
    requires forall i | 0 <= i < |d| :: IsData(d[i])
    ensures Run(Snapshot(Idle, buf), d)
      == Trace(Overflows(if |buf| + |d| > OutputLength then |buf| + |d| - OutputLength else 0),
               Snapshot(Idle, Window(buf + d)))
    decreases |d|
  {
    if d == [] {
      assert buf + d == buf;
    } else {
      var c, rest := d[0], d[1..];
      var grown := buf + [c];
      assert grown + rest == buf + d;
      RunCons(Snapshot(Idle, buf), d);
      TransitionData(buf, c);
      if |buf| < OutputLength {
        RunData(grown, rest);
      } else {
        var trimmed := grown[1..];
        RunData(trimmed, rest);
        var all := buf + d;
        assert trimmed + rest == all[1..];
        assert Window(all[1..]) == Window(all) by {
          if |d| > 1 {
            assert all[1..][|all| - 1 - OutputLength..] == all[|all| - OutputLength..];
          }
        }
        assert [Err(LengthError(OutputLength + 1))] + Overflows(|d| - 1) == Overflows(|d|);
      }
    }
  }

  /** After a CR, any run of LFs is swallowed: nothing is emitted and the
      parser stays in `FoundCr` with an empty buffer. */
  lemma {:induction false} RunLfAfterCr(n: nat)
    ensures Run(Snapshot(FoundCr, []), seq(n, _ => LF)) == Trace([], Snapshot(FoundCr, []))
  {
    if n > 0 {
      assert seq(n, _ => LF)[1..] == seq(n - 1, _ => LF);
      RunLfAfterCr(n - 1);
    }
  }

  /** In `FoundCr`, a second CR is not a terminator: it is appended to the
      buffer as data and the parser returns to `Idle`. */
  lemma TransitionCrAfterCr(buf: seq<byte>)
    ensures Transition(Snapshot(FoundCr, buf), CR) == Step(Ok(Option.None), Snapshot(Idle, buf + [CR]))
  {
  }

  /** CR CR after a buffered payload: the first CR emits the payload's
      decoding, the second becomes the first byte of the next frame. */
  lemma RunDoubleCr(p: seq<byte>)
    ensures Run(Snapshot(Idle, p), [CR, CR]) == Trace([ParseOutput(p)], Snapshot(Idle, [CR]))
  {
    var s := Snapshot(Idle, p);
    assert Emitted(Framed(ParseOutput(p))) == [ParseOutput(p)];
    assert [CR, CR] == [CR] + [CR];
    RunAppend(s, [CR], [CR]);
    RunSingle(s, CR);
    RunSingle(Snapshot(FoundCr, []), CR);
    TransitionCrAfterCr([]);
  }

  /** CR CR LF after a buffered payload reports the payload's decoding, then
      the decoding of the one-byte frame holding the second CR. */
  lemma RunCrCrLf(p: seq<byte>)
    ensures Run(Snapshot(Idle, p), [CR, CR, LF]).results == [ParseOutput(p), ParseOutput([CR])]
  {
    var s := Snapshot(Idle, p);
    var mid := Snapshot(Idle, [CR]);
    assert Run(s, [CR, CR]) == Trace([ParseOutput(p)], mid) by {
      RunDoubleCr(p);
    }
    assert Run(mid, [LF]).results == [ParseOutput([CR])] by {
      RunTerminator([CR], [LF]);
    }
    assert [CR, CR, LF] == [CR, CR] + [LF];
    RunAppend(s, [CR, CR], [LF]);
  }

  /** Its visible effect on an empty parser: the empty frame, then the
      one-byte frame, both rejected for their length. */
  lemma RunCrCrLfEmpty()
    ensures Run(Snapshot(Idle, []), [CR, CR, LF]).results == [Err(LengthError(0)), Err(LengthError(1))]
  {
    RunCrCrLf([]);
    assert ParseOutput([]) == Err(LengthError(0));
    assert ParseOutput([CR]) == Err(LengthError(1));
  }

  /** A payload without terminators, read from an empty buffer in either
      state, is buffered whole and emits nothing. */
  lemma RunPayload(start: Snapshot, p: seq<byte>)
    requires start == Snapshot(Idle, []) || start == Snapshot(FoundCr, [])
    requires 1 <= |p| <= OutputLength
    requires forall i | 0 <= i < |p| :: IsData(p[i])
    ensures Run(start, p) == Trace([], Snapshot(Idle, p))
  {
    if start.state == Idle {
      RunData([], p);
      assert [] + p == p;
    } else {
      assert p == [p[0]] + p[1..];
      RunAppend(start, [p[0]], p[1..]);
      RunSingle(start, p[0]);
      RunData([p[0]], p[1..]);
    }
  }

  /** The terminators the framer accepts: CR, LF or CR LF. */
  predicate IsTerminator(t: seq<byte>) {
    t == [CR] || t == [LF] || t == [CR, LF]
  }

  /** A payload followed by a terminator yields exactly the decoding of the
      payload, whatever the terminator, and leaves the buffer empty. */
  lemma RunFrame(start: Snapshot, p: seq<byte>, t: seq<byte>)
    requires start == Snapshot(Idle, []) || start == Snapshot(FoundCr, [])
    requires 1 <= |p| <= OutputLength
    requires forall i | 0 <= i < |p| :: IsData(p[i])
    requires IsTerminator(t)
    ensures Run(start, p + t) == Trace([ParseOutput(p)], Snapshot(if t[0] == CR then FoundCr else Idle, []))
  {
    RunPayload(start, p);
    RunAppend(start, p, t);
    RunTerminator(p, t);
  }

  /** A terminator after a buffered payload emits its decoding. */
  lemma RunTerminator(p: seq<byte>, t: seq<byte>)
    requires IsTerminator(t)
    ensures Run(Snapshot(Idle, p), t) == Trace([ParseOutput(p)], Snapshot(if t[0] == CR then FoundCr else Idle, []))
  {
    var mid := Snapshot(Idle, p);
    assert Emitted(Framed(ParseOutput(p))) == [ParseOutput(p)];
    if t == [CR, LF] {
      assert t == [CR] + [LF];
      RunAppend(mid, [CR], [LF]);
      RunSingle(mid, CR);
      RunSingle(Snapshot(FoundCr, []), LF);
    } else {
      RunSingle(mid, t[0]);
    }
  }

  /** An over-long line: every data byte beyond the ninth emits its own
      `LengthError{len: 10}`, and the terminator then decodes only the last
      nine bytes. */
  lemma RunOverlongLine(d: seq<byte>, t: seq<byte>)
    requires |d| > OutputLength
    requires forall i | 0 <= i < |d| :: IsData(d[i])
    requires IsTerminator(t)
    ensures Run(Snapshot(Idle, []), d + t).results
      == Overflows(|d| - OutputLength) + [ParseOutput(d[|d| - OutputLength..])]
  {
    var empty := Snapshot(Idle, []);
    var last := d[|d| - OutputLength..];
    assert Run(empty, d) == Trace(Overflows(|d| - OutputLength), Snapshot(Idle, last)) by {
      RunData([], d);
      assert [] + d == d;
    }
    assert Run(Snapshot(Idle, last), t).results == [ParseOutput(last)] by {
      RunTerminator(last, t);
    }
    RunAppend(empty, d, t);
  }

  /** Terminator equivalence: the same payload sent twice, with any one of the
      three terminators, gives the same result twice from an empty parser. */
  lemma TerminatorEquivalence(p: seq<byte>, t: seq<byte>)
    requires 1 <= |p| <= OutputLength
    requires forall i | 0 <= i < |p| :: IsData(p[i])
    requires IsTerminator(t)
    ensures Run(Snapshot(Idle, []), p + t + p + t).results == [ParseOutput(p), ParseOutput(p)]
  {
    var empty := Snapshot(Idle, []);
    RunFrame(empty, p, t);
    var mid := Run(empty, p + t).final;
    RunFrame(mid, p, t);
    assert p + t + p + t == (p + t) + (p + t);
    RunAppend(empty, p + t, p + t);
  }

  /** The framer object: `state` and `buf` are updated in place. */
  class Parser {
    var state: ParserState
    var buf: seq<byte>

    ghost predicate Valid()
      reads this
    {
      Settled(Current())
    }

    function Current(): Snapshot
      reads this
    {
      Snapshot(state, buf)
    }

    /** `Parser::new`: idle, with an empty buffer. */
    constructor ()
      ensures Valid() && Current() == Snapshot(Idle, [])
    {
      state := Idle;
      buf := [];
    }

    /** `parse_ch`: consume one byte. */
    method ParseCh(ch: byte) returns (r: Result<Option<Output>, ParseError>)
      requires Valid()
      modifies this
      ensures Valid()
      ensures Transition(old(Current()), ch) == Step(r, Current())
    {
      match state
      case Idle =>
        if ch == CR {
          state := FoundCr;
          var result := ParseOutput(buf);
          buf := [];
          r := Framed(result);
        } else if ch == LF {
          state := Idle;
          var result := ParseOutput(buf);
          buf := [];
          r := Framed(result);
        } else {
          buf := buf + [ch];
          var len := |buf|;
          if OutputLength < len {
            var drainAmount := len - OutputLength;
            buf := buf[drainAmount..];
            r := Err(LengthError(len));
          } else {
            r := Ok(Option.None);
          }
        }
      case FoundCr =>
        if ch == LF {
          buf := [];
          r := Ok(Option.None);
        } else {
          buf := buf + [ch];
          state := Idle;
          r := Ok(Option.None);
        }
    }

    /** `parse`: consume a chunk, returning the outcomes that are not
        `Ok(None)` in input order. */
    method Parse(input: seq<byte>) returns (results: seq<Result<Output, ParseError>>)
      requires Valid()
      modifies this
      ensures Valid()
      ensures Run(old(Current()), input) == Trace(results, Current())
    {
      ghost var start := Current();
      results := [];
      for i := 0 to |input|
        invariant Valid()
        invariant Run(start, input[..i]) == Trace(results, Current())
      {
        ghost var before, prev := Current(), results;
        var outcome := ParseCh(input[i]);
        match outcome {
          case Ok(Some(out)) => results := results + [Ok(out)];
          case Ok(None) =>
          case Err(err) => results := results + [Err(err)];
        }
        assert results == prev + Emitted(outcome);
        assert input[..i + 1] == input[..i] + [input[i]];
        RunAppend(start, input[..i], [input[i]]);
        RunSingle(before, input[i]);
        assert Run(before, [input[i]]) == Trace(Emitted(outcome), Current());
        assert Run(start, input[..i + 1]) == Trace(prev + Emitted(outcome), Current());
      }
      assert input[..|input|] == input;
    }
  }
}
