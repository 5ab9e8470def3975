/** generate_segment_names: the WAL segments from a first name, either up to and
    including a last name or without end, walking segment by segment and rolling
    over to the next log after the last segment a log holds. */
module SegmentSequence {
  import opened Wrappers
  import opened XlogErrors
  import opened Hex
  import opened SegmentNames

  /** A segment's place in the WAL of one timeline: its log and its segment number. */
  datatype Position = Position(log: nat, seg: nat)

  /** 0xFFFFFFFF // XLogSegSize: the highest segment number of a log, 255. */
  const SegmentsPerFile: nat := 0xFFFF_FFFF / XLogSegSize

  /** A server before 9.3 never uses the last segment of a log (FF). With no
      version, or a version of zero, the model takes the server to be recent. */
  predicate IsLegacy(version: Option<int>)
  {
    version.Some? && version.value != 0 && version.value < 90300
  }

  /** How many segments a log holds: 256 (00 to FF), or 255 before 9.3 (00 to FE). */
  function SegmentsPerLog(version: Option<int>): (n: nat)
    ensures n == if IsLegacy(version) then 255 else 256
  {
    if IsLegacy(version) then SegmentsPerFile else SegmentsPerFile + 1
  }

  /** The step after yielding a segment: the next segment number, or the first
      segment of the next log once past SegmentsPerFile, or at it before 9.3. */
  function Advance(p: Position, version: Option<int>): Position
  {
    var seg := p.seg + 1;
    if seg > SegmentsPerFile || (IsLegacy(version) && seg == SegmentsPerFile) then Position(p.log + 1, 0)
    else Position(p.log, seg)
  }

  /** The loop condition of the bounded generator: p does not come after e. */
  predicate NotPast(p: Position, e: Position)
  {
    p.log < e.log || (p.log == e.log && p.seg <= e.seg)
  }

  /** A position a server of this version can hold: its segment number is inside a log. */
  predicate InLog(p: Position, version: Option<int>)
  {
    p.seg < SegmentsPerLog(version)
  }

  /** The number of segments before p in the WAL of its timeline. */
  function Ordinal(p: Position, version: Option<int>): nat
  {
    p.log * SegmentsPerLog(version) + p.seg
  }

  /** Segments left in the current log; what the walk uses up before it rolls over. */
  function Countdown(seg: nat): nat
  {
    if seg <= SegmentsPerFile then SegmentsPerFile + 1 - seg else 0
  }

  /** The positions the bounded generator visits from p while it has not passed e. */
  function RangePositions(p: Position, e: Position, version: Option<int>): seq<Position>
    decreases e.log + 1 - p.log, Countdown(p.seg)
  {
    if NotPast(p, e) then [p] + RangePositions(Advance(p, version), e, version) else []
  }

  /** The first n positions the generator visits from p; with a bound it stops
      early once past it. */
  function FirstPositions(p: Position, bound: Option<Position>, version: Option<int>, n: nat): seq<Position>
    decreases n
  {
    if n == 0 || (bound.Some? && !NotPast(p, bound.value)) then []
    else [p] + FirstPositions(Advance(p, version), bound, version, n - 1)
  }

  /** The segment names of a timeline at the given positions. */
  function Names(tli: nat, ps: seq<Position>): (names: seq<string>)
    ensures |names| == |ps|
  {
    if ps == [] then [] else [EncodeSegmentName(tli, ps[0].log, ps[0].seg)] + Names(tli, ps[1..])
  }

  /** What the generator works from once its arguments are read: the timeline, the
      first position and, when an end is given, the last. */
  datatype Walk = Walk(tli: nat, start: Position, bound: Option<Position>)

  /** An end of None, and in this model an end of "" too, means the generator has no end. */
  predicate HasEnd(end: Option<string>)
  {
    end.Some? && end.value != ""
  }

  /** The name decodes to a timeline, log and segment (not to a timeline alone). */
  predicate IsSegment(name: string)
  {
    DecodeSegmentName(name).Ok? && DecodeSegmentName(name).value.Segment?
  }

  predicate SameTimeline(a: string, b: string)
    requires DecodeSegmentName(a).Ok? && DecodeSegmentName(b).Ok?
  {
    DecodeSegmentName(a).value.tli == DecodeSegmentName(b).value.tli
  }

  /** The checks the generator makes before its first name: both names decode
      (BadXlogSegmentName otherwise), share a timeline (an assertion otherwise),
      and are segment names, as a history name has no log to count with (TypeError). */
  function StartWalk(begin: string, end: Option<string>, version: Option<int>): (r: Result<Walk, XlogError>)
    ensures DecodeSegmentName(begin).Err? ==> r == Err(DecodeSegmentName(begin).error)
    ensures DecodeSegmentName(begin).Ok? && HasEnd(end) && DecodeSegmentName(end.value).Err? ==>
              r == Err(DecodeSegmentName(end.value).error)
    ensures DecodeSegmentName(begin).Ok? && HasEnd(end) && DecodeSegmentName(end.value).Ok? ==>
              (DecodeSegmentName(begin).value.tli != DecodeSegmentName(end.value).value.tli ==> r == Err(TimelineMismatch))
    ensures r.Ok? <==> IsSegment(begin) && (HasEnd(end) ==> IsSegment(end.value) && SameTimeline(begin, end.value))
    ensures r.Ok? ==> r.value.bound.Some? == HasEnd(end)
  {
    var first :- DecodeSegmentName(begin);
    if HasEnd(end) then
      var last :- DecodeSegmentName(end.value);
      if first.tli != last.tli then Err(TimelineMismatch)
      else if first.TimelineOnly? || last.TimelineOnly? then Err(TypeError)
      else Ok(Walk(first.tli, Position(first.log, first.seg), Some(Position(last.log, last.seg))))
    else if first.TimelineOnly? then Err(TypeError)
    else Ok(Walk(first.tli, Position(first.log, first.seg), None))
  }

  /** tuple(generate_segment_names(begin, end, version)): every name from begin up to end. */
  function SegmentRange(begin: string, end: string, version: Option<int>): Result<seq<string>, XlogError>
    requires end != ""
  {
    var w :- StartWalk(begin, Some(end), version);
    Ok(Names(w.tli, RangePositions(w.start, w.bound.value, version)))
  }

  /** islice(generate_segment_names(begin, end, version), n): the first n names. Taking
      none never starts the generator, so not even its checks run. */
  function FirstSegments(begin: string, end: Option<string>, version: Option<int>, n: nat): Result<seq<string>, XlogError>
  {
    if n == 0 then Ok([])
    else
      var w :- StartWalk(begin, end, version);
      Ok(Names(w.tli, FirstPositions(w.start, w.bound, version, n)))
  }

  /** The generator between two yields: where it stands and where it stops. */
  class SegmentNameGenerator {
    const tli: nat
    const version: Option<int>
    const bound: Option<Position>
    var cursor: Position

    constructor (tli: nat, start: Position, bound: Option<Position>, version: Option<int>)
      ensures this.tli == tli && this.version == version && this.bound == bound && cursor == start
    {
      this.tli := tli;
      this.version := version;
      this.bound := bound;
      cursor := start;
    }

    /** The loop condition: no end, or the cursor has not passed it. */
    predicate HasNext()
      reads this
    {
      bound.None? || NotPast(cursor, bound.value)
    }

    /** Yields the name at the cursor and steps past it. */
    method Next() returns (name: string)
      requires HasNext()
      modifies this
      ensures name == EncodeSegmentName(tli, old(cursor).log, old(cursor).seg)
      ensures cursor == Advance(old(cursor), version)
    {
      name := EncodeSegmentName(tli, cursor.log, cursor.seg);
      cursor := Advance(cursor, version);
    }
  }

  /** Draining a bounded generator: every name from begin up to and including end. */
  method CollectSegmentNames(begin: string, end: string, version: Option<int>) returns (r: Result<seq<string>, XlogError>)
    requires end != ""
    ensures r == SegmentRange(begin, end, version)
  {
    var start := StartWalk(begin, Some(end), version);
    if start.Err? {
      return Err(start.error);
    }
    var names := DrainRange(start.value, version);
    r := Ok(names);
  }

  /** The loop of a bounded generator, drained to its end. */
  method DrainRange(w: Walk, version: Option<int>) returns (names: seq<string>)
    requires w.bound.Some?
    ensures names == Names(w.tli, RangePositions(w.start, w.bound.value, version))
  {
    var e := w.bound.value;
    var g := new SegmentNameGenerator(w.tli, w.start, w.bound, version);
    names := [];
    while g.HasNext()
      invariant g.tli == w.tli && g.bound == Some(e) && g.version == version
      invariant names + Names(w.tli, RangePositions(g.cursor, e, version)) == Names(w.tli, RangePositions(w.start, e, version))
      decreases e.log + 1 - g.cursor.log, Countdown(g.cursor.seg)
    {
      ghost var before := g.cursor;
      var name := g.Next();
      RangeStep(w.tli, names, before, e, version);
      names := names + [name];
    }
  }

  /** Taking the first n names of a generator, bounded or not. */
  method FirstSegmentNames(begin: string, end: Option<string>, version: Option<int>, n: nat) returns (r: Result<seq<string>, XlogError>)
    ensures r == FirstSegments(begin, end, version, n)
  {
    if n == 0 {
      return Ok([]);
    }
    var start := StartWalk(begin, end, version);
    if start.Err? {
      return Err(start.error);
    }
    var names := TakeNames(start.value, version, n);
    r := Ok(names);
  }

  /** The loop of islice over a generator: at most n yields. */
  method TakeNames(w: Walk, version: Option<int>, n: nat) returns (names: seq<string>)
    ensures names == Names(w.tli, FirstPositions(w.start, w.bound, version, n))
  {
    var g := new SegmentNameGenerator(w.tli, w.start, w.bound, version);
    names := [];
    var left := n;
    while left > 0 && g.HasNext()
      decreases left
      invariant g.tli == w.tli && g.bound == w.bound && g.version == version
      invariant names + Names(w.tli, FirstPositions(g.cursor, w.bound, version, left)) == Names(w.tli, FirstPositions(w.start, w.bound, version, n))
    {
      ghost var before := g.cursor;
      var name := g.Next();
      TakeStep(w.tli, names, before, w.bound, version, left);
      names := names + [name];
      left := left - 1;
    }
  }

  /** Moving the name of the front position from the pending names to those already yielded. */
  lemma NamesCons(tli: nat, done: seq<string>, p: Position, ps: seq<Position>)
    ensures done + Names(tli, [p] + ps) == (done + [EncodeSegmentName(tli, p.log, p.seg)]) + Names(tli, ps)
  {
    assert ([p] + ps)[1..] == ps;
  }

  /** One turn of the bounded loop moves one name from pending to yielded. */
  lemma RangeStep(tli: nat, done: seq<string>, p: Position, e: Position, version: Option<int>)
    requires NotPast(p, e)
    ensures done + Names(tli, RangePositions(p, e, version))
            == (done + [EncodeSegmentName(tli, p.log, p.seg)]) + Names(tli, RangePositions(Advance(p, version), e, version))
  {
    NamesCons(tli, done, p, RangePositions(Advance(p, version), e, version));
  }

  /** One turn of the islice loop moves one name from pending to yielded. */
  lemma TakeStep(tli: nat, done: seq<string>, p: Position, bound: Option<Position>, version: Option<int>, left: nat)
    requires left > 0 && (bound.None? || NotPast(p, bound.value))
    ensures done + Names(tli, FirstPositions(p, bound, version, left))
            == (done + [EncodeSegmentName(tli, p.log, p.seg)]) + Names(tli, FirstPositions(Advance(p, version), bound, version, left - 1))
  {
    NamesCons(tli, done, p, FirstPositions(Advance(p, version), bound, version, left - 1));
  }

  // What the walk visits: consecutive segments, in order, none outside a log.

  /** Within a log, a step moves to the very next segment, rolling over to the
      next log after its last one; so before 9.3, segment FF is never reached. */
  lemma AdvanceStep(p: Position, version: Option<int>)
    requires InLog(p, version)
    ensures InLog(Advance(p, version), version)
    ensures Ordinal(Advance(p, version), version) == Ordinal(p, version) + 1
  {
    var k := SegmentsPerLog(version);
    if p.seg + 1 == k {
      assert (p.log + 1) * k == p.log * k + k;
    }
  }

  /** The loop condition compares positions by their ordinals. */
  lemma NotPastOrdinal(p: Position, e: Position, version: Option<int>)
    requires InLog(p, version) && InLog(e, version)
    ensures NotPast(p, e) <==> Ordinal(p, version) <= Ordinal(e, version)
  {
    var k := SegmentsPerLog(version);
    if p.log < e.log {
      MulMonotone(k, p.log + 1, e.log);
      assert k * (p.log + 1) == p.log * k + k;
    } else if e.log < p.log {
      MulMonotone(k, e.log + 1, p.log);
      assert k * (e.log + 1) == e.log * k + k;
    }
  }

  /** Positions inside a log are told apart by their ordinals. */
  lemma OrdinalInjective(p: Position, q: Position, version: Option<int>)
    requires InLog(p, version) && InLog(q, version)
    requires Ordinal(p, version) == Ordinal(q, version)
    ensures p == q
  {
    NotPastOrdinal(p, q, version);
    NotPastOrdinal(q, p, version);
  }

  /** From a position inside a log, the bounded walk visits every ordinal from its
      start to its end once, in order, and nothing else: Ordinal(e) - Ordinal(p) + 1
      segments, or none when p comes after e. */
  lemma {:induction false} RangeOrdinals(p: Position, e: Position, version: Option<int>)
    requires InLog(p, version) && InLog(e, version)
    ensures var r := RangePositions(p, e, version);
            |r| == if Ordinal(p, version) <= Ordinal(e, version) then Ordinal(e, version) - Ordinal(p, version) + 1 else 0
    ensures var r := RangePositions(p, e, version);
            forall i :: 0 <= i < |r| ==> InLog(r[i], version) && Ordinal(r[i], version) == Ordinal(p, version) + i
    decreases e.log + 1 - p.log, Countdown(p.seg)
  {
    NotPastOrdinal(p, e, version);
    if NotPast(p, e) {
      var q := Advance(p, version);
      AdvanceStep(p, version);
      RangeOrdinals(q, e, version);
      var r := RangePositions(p, e, version);
      assert r == [p] + RangePositions(q, e, version);
      forall i | 0 <= i < |r|
        ensures InLog(r[i], version) && Ordinal(r[i], version) == Ordinal(p, version) + i
      {
        if i > 0 {
          assert r[i] == RangePositions(q, e, version)[i - 1];
        }
      }
    }
  }

  /** Before 9.3 segment FF of a log is never visited, so an end there stops the
      walk after FE of that log, as an end at FE does. */
  lemma {:induction false} LegacyLastSegmentEnd(p: Position, l: nat, version: Option<int>)
    requires IsLegacy(version) && InLog(p, version)
    ensures RangePositions(p, Position(l, 0xFF), version) == RangePositions(p, Position(l, 0xFE), version)
    decreases l + 1 - p.log, Countdown(p.seg)
  {
    if NotPast(p, Position(l, 0xFE)) {
      AdvanceStep(p, version);
      LegacyLastSegmentEnd(Advance(p, version), l, version);
    }
  }

  /** Without an end, the first n positions from one inside a log are n consecutive
      ordinals, all inside a log: the walk rolls over at each log boundary. */
  lemma {:induction false} FirstOrdinals(p: Position, version: Option<int>, n: nat)
    requires InLog(p, version)
    ensures var r := FirstPositions(p, None, version, n);
            |r| == n && forall i :: 0 <= i < n ==> InLog(r[i], version) && Ordinal(r[i], version) == Ordinal(p, version) + i
    decreases n
  {
    if n > 0 {
      var q := Advance(p, version);
      AdvanceStep(p, version);
      FirstOrdinals(q, version, n - 1);
      var r := FirstPositions(p, None, version, n);
      assert r == [p] + FirstPositions(q, None, version, n - 1);
      forall i | 0 <= i < n
        ensures InLog(r[i], version) && Ordinal(r[i], version) == Ordinal(p, version) + i
      {
        if i > 0 {
          assert r[i] == FirstPositions(q, None, version, n - 1)[i - 1];
        }
      }
    }
  }

  /** Taking n names from a bounded walk gives the first n of the whole range, or all of it. */
  lemma {:induction false} FirstOfRange(p: Position, e: Position, version: Option<int>, n: nat)
    ensures var r := RangePositions(p, e, version);
            FirstPositions(p, Some(e), version, n) == if n < |r| then r[..n] else r
    decreases n
  {
    var r := RangePositions(p, e, version);
    if n > 0 && NotPast(p, e) {
      var q := Advance(p, version);
      FirstOfRange(q, e, version, n - 1);
      var r' := RangePositions(q, e, version);
      assert r == [p] + r';
      if n < |r| {
        assert r[..n] == [p] + r'[..n - 1];
      }
    }
  }
}
