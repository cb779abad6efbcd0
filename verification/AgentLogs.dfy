/** The append-only decision log: a sink, a bounded ring to fall back to, and a cap on stored replies. */
module AgentLogs {
  import opened Base
  import opened Utf8

  const SCHEMA_VERSION: nat := 2
  const RAW_RESPONSE_MAX_BYTES: nat := 65_536
  const AGENT_ID_MAX_LEN: nat := 256
  const RATIONALE_MAX_LEN: nat := 4_096
  const PROVENANCE_STR_MAX_LEN: nat := 128

  datatype Entry = Entry(
    schemaVersion: u32, agentId: seq<byte>, rationale: seq<byte>,
    raw: Option<seq<byte>>, truncated: Option<nat>,
    backend: Option<seq<byte>>, model: Option<seq<byte>>)

  // ---- Capping a reply ----

  /** What the cap of a reply must give: the longest well-formed prefix within the limit, and its original length if cut. */
  ghost predicate Capped(s: seq<byte>, kept: seq<byte>, marker: Option<nat>) {
    if |s| <= RAW_RESPONSE_MAX_BYTES then kept == s && marker == None
    else
      && marker == Some(|s|)
      && RAW_RESPONSE_MAX_BYTES - 3 <= |kept| <= RAW_RESPONSE_MAX_BYTES
      && kept == s[..|kept|] && WellFormed(kept)
      && forall c: nat :: |kept| < c <= RAW_RESPONSE_MAX_BYTES ==> !WellFormed(s[..c])
  }

  method CapRawResponse(s: seq<byte>) returns (kept: seq<byte>, marker: Option<nat>)
    requires WellFormed(s)
    ensures Capped(s, kept, marker)
  {
    if |s| <= RAW_RESPONSE_MAX_BYTES { return s, None; }
    var cap := RAW_RESPONSE_MAX_BYTES;
    while cap > 0 && !IsBoundary(s, cap)
      invariant cap <= RAW_RESPONSE_MAX_BYTES
      invariant forall c: nat :: cap < c <= RAW_RESPONSE_MAX_BYTES ==> !IsBoundary(s, c)
    {
      cap := cap - 1;
    }
    hide WellFormed;
    BoundaryNear(s, RAW_RESPONSE_MAX_BYTES);
    CutsAtBoundaries(s, cap);
    forall c: nat | cap < c <= RAW_RESPONSE_MAX_BYTES ensures !WellFormed(s[..c]) {
      CutsAtBoundaries(s, c);
    }
    return s[..cap], Some(|s|);
  }

  // ---- Row validation ----

  datatype SchemaError =
    | UnsupportedVersion | EmptyAgentId | AgentIdTooLong | RationaleTooLong
    | UncappedRawResponse | MarkerWithoutResponse | MarkerOnSmallResponse | MarkerNotGreater
    | BackendTooLong | ModelTooLong

  function ReplyError(raw: Option<seq<byte>>, truncated: Option<nat>): Option<SchemaError> {
    match (raw, truncated)
    case (None, None) => None
    case (None, Some(_)) => Some(MarkerWithoutResponse)
    case (Some(r), None) => if |r| > RAW_RESPONSE_MAX_BYTES then Some(UncappedRawResponse) else None
    case (Some(r), Some(original)) =>
      if original <= RAW_RESPONSE_MAX_BYTES then Some(MarkerOnSmallResponse)
      else if original <= |r| then Some(MarkerNotGreater)
      else None
  }

  predicate Fits(s: Option<seq<byte>>, max: nat) { s.Some? ==> |s.value| <= max }

  function ValidateEntry(e: Entry): (r: Option<SchemaError>)
    ensures r.None? <==>
      && 1 <= e.schemaVersion <= SCHEMA_VERSION && 1 <= |e.agentId| <= AGENT_ID_MAX_LEN && |e.rationale| <= RATIONALE_MAX_LEN
      && ReplyError(e.raw, e.truncated).None?
      && Fits(e.backend, PROVENANCE_STR_MAX_LEN) && Fits(e.model, PROVENANCE_STR_MAX_LEN)
  {
    if e.schemaVersion == 0 || e.schemaVersion > SCHEMA_VERSION then Some(UnsupportedVersion)
    else if e.agentId == [] then Some(EmptyAgentId)
    else if |e.agentId| > AGENT_ID_MAX_LEN then Some(AgentIdTooLong)
    else if |e.rationale| > RATIONALE_MAX_LEN then Some(RationaleTooLong)
    else if ReplyError(e.raw, e.truncated).Some? then ReplyError(e.raw, e.truncated)
    else if !Fits(e.backend, PROVENANCE_STR_MAX_LEN) then Some(BackendTooLong)
    else if !Fits(e.model, PROVENANCE_STR_MAX_LEN) then Some(ModelTooLong)
    else None
  }

  /**
   * Builds a row. Whatever redaction does to strings, the reply is redacted first and capped then, so that no secret
   * is cut in two, and the marker is always one that validation accepts.
   */
  method WithProvenance(
    agentId: seq<byte>, rationale: seq<byte>, reply: Option<seq<byte>>, backend: Option<seq<byte>>, model: Option<seq<byte>>,
    redact: seq<byte> -> seq<byte>)
    returns (e: Entry)
    requires reply.Some? ==> WellFormed(redact(reply.value))
    ensures ReplyError(e.raw, e.truncated).None?
    ensures match reply
      case None => e.raw == None && e.truncated == None
      case Some(s) => e.raw.Some? && Capped(redact(s), e.raw.value, e.truncated)
    ensures ValidateEntry(e).None? <==>
      1 <= |agentId| <= AGENT_ID_MAX_LEN && |rationale| <= RATIONALE_MAX_LEN && Fits(backend, PROVENANCE_STR_MAX_LEN) && Fits(model, PROVENANCE_STR_MAX_LEN)
  {
    var raw: Option<seq<byte>>, truncated: Option<nat> := None, None;
    if reply.Some? {
      var kept, marker := CapRawResponse(redact(reply.value));
      raw, truncated := Some(kept), marker;
    }
    hide WellFormed;
    e := Entry(SCHEMA_VERSION, agentId, rationale, raw, truncated, backend, model);
  }

  // ---- The log ----

  datatype Line = Row(entry: Entry) | SerializeError(agentId: seq<byte>)

  /** How much of a line a sink takes: all of it, or, failing, a part that may lack no more than the newline, or nothing. */
  datatype Written = Whole | Part | Nothing

  /** What the world does to one append: whether the row serializes, and how much of it the sink takes. */
  datatype Io = Io(serializes: bool, written: Written)

  /** `tail` is the row whose line a failed write has left torn at the end of the sink. */
  datatype Log = Log(sink: seq<Line>, tail: Option<Line>, ring: seq<Line>, cap: nat, degraded: bool, dropped: u64)

  function Pushed(l: Log, line: Line): Log {
    if |l.ring| >= l.cap then
      l.(ring := (if l.ring == [] then [] else l.ring[1..]) + [line], dropped := SatAdd(l.dropped, 1))
    else l.(ring := l.ring + [line])
  }

  /** The line a row leaves in the ring, if that is where it goes. */
  function Fallback(l: Log, e: Entry, io: Io): Option<Line> {
    if ValidateEntry(e).Some? then None
    else if !io.serializes then Some(SerializeError(e.agentId))
    else if l.degraded || !io.written.Whole? then Some(Row(e))
    else None
  }

  /** The log after one append, and whether the slow-log warning is raised. */
  function Appended(l: Log, e: Entry, io: Io): (Log, bool) {
    if ValidateEntry(e).Some? then (l.(dropped := SatAdd(l.dropped, 1), degraded := true), !l.degraded)
    else if !io.serializes then (Pushed(l, SerializeError(e.agentId)).(degraded := true), !l.degraded)
    else if l.degraded then (Pushed(l, Row(e)), false)
    else if !io.written.Whole? then (Pushed(l, Row(e)).(degraded := true, tail := if io.written.Part? then Some(Row(e)) else l.tail), true)
    else (l.(sink := l.sink + [Row(e)]), false)
  }

  class AgentLog {
    var sink: seq<Line>
    var tail: Option<Line>
    var ring: seq<Line>
    const cap: nat
    var degraded: bool
    var dropped: u64

    function View(): Log
      reads this
    {
      Log(sink, tail, ring, cap, degraded, dropped)
    }

    constructor (cap: nat)
      ensures View() == Log([], None, [], cap, false, 0)
    {
      this.cap := cap;
      sink, tail, ring, degraded, dropped := [], None, [], false, 0;
    }

    method PushRing(line: Line)
      modifies this`ring, this`dropped
      ensures View() == Pushed(old(View()), line)
    {
      if |ring| >= cap {
        if ring != [] { ring := ring[1..]; }
        dropped := SatAdd(dropped, 1);
      }
      ring := ring + [line];
    }

    method FirstDegrade() returns (slow: bool)
      modifies this`degraded
      ensures degraded && slow == !old(degraded)
    {
      slow := !degraded;
      degraded := true;
    }

    method ForceDegrade()
      modifies this`degraded
      ensures View() == old(View()).(degraded := true)
    {
      degraded := true;
    }

    /** An invalid row reaches neither sink nor ring; a failing sink sends this row and all later ones to the ring. */
    method Append(e: Entry, io: Io) returns (slow: bool)
      modifies this
      ensures (View(), slow) == Appended(old(View()), e, io)
    {
      if ValidateEntry(e).Some? {
        dropped := SatAdd(dropped, 1);
        slow := FirstDegrade();
        return;
      }
      if !io.serializes {
        PushRing(SerializeError(e.agentId));
        slow := FirstDegrade();
        return;
      }
      if degraded {
        PushRing(Row(e));
        return false;
      }
      if !io.written.Whole? {
        if io.written.Part? { tail := Some(Row(e)); }
        PushRing(Row(e));
        slow := FirstDegrade();
        return;
      }
      sink := sink + [Row(e)];
      return false;
    }
  }

  // ---- Runs ----

  datatype Step = AppendRow(entry: Entry, io: Io) | ForceDegrade

  function Next(l: Log, s: Step): (Log, bool) {
    match s
    case AppendRow(e, io) => Appended(l, e, io)
    case ForceDegrade => (l.(degraded := true), false)
  }

  function LogAt(cap: nat, steps: seq<Step>, n: nat): Log
    requires n <= |steps|
  {
    if n == 0 then Log([], None, [], cap, false, 0) else Next(LogAt(cap, steps, n - 1), steps[n - 1]).0
  }

  /** Rows appended so far. */
  function Appends(steps: seq<Step>, n: nat): nat
    requires n <= |steps|
  {
    if n == 0 then 0 else Appends(steps, n - 1) + if steps[n - 1].AppendRow? then 1 else 0
  }

  /** Every line that was sent to the ring, oldest first. */
  function Fallbacks(cap: nat, steps: seq<Step>, n: nat): seq<Line>
    requires n <= |steps|
  {
    if n == 0 then []
    else
      var before, s := Fallbacks(cap, steps, n - 1), steps[n - 1];
      if s.AppendRow? && Fallback(LogAt(cap, steps, n - 1), s.entry, s.io).Some?
      then before + [Fallback(LogAt(cap, steps, n - 1), s.entry, s.io).value] else before
  }

  function SlowWarnings(cap: nat, steps: seq<Step>, n: nat): nat
    requires n <= |steps|
  {
    if n == 0 then 0 else SlowWarnings(cap, steps, n - 1) + if Next(LogAt(cap, steps, n - 1), steps[n - 1]).1 then 1 else 0
  }

  /** What one step adds to the books. */
  lemma NextCounts(l: Log, s: Step)
    requires l.dropped < U64_MAX && |l.ring| <= Max(1, l.cap)
    ensures var (l', slow) := Next(l, s);
      && l'.cap == l.cap
      && l'.ring == (if s.AppendRow? && Fallback(l, s.entry, s.io).Some? then Shifted(l.ring, Max(1, l.cap), Fallback(l, s.entry, s.io).value) else l.ring)
      && |l'.sink| + |l'.ring| + l'.dropped == |l.sink| + |l.ring| + l.dropped
           + (if s.AppendRow? then 1 else 0) + (if l.cap == 0 && l.ring == [] && l'.ring != [] then 1 else 0)
      && l'.dropped <= l.dropped + 1
      && (slow ==> l'.degraded && !l.degraded) && (l.degraded ==> l'.degraded)
      && (l'.tail == l.tail || (l'.degraded && s.AppendRow? && l'.tail == Fallback(l, s.entry, s.io)))
  {
    hide ValidateEntry;
  }

  /** The books after n steps. */
  ghost predicate Accounted(cap: nat, steps: seq<Step>, n: nat)
    requires n <= |steps|
  {
    var l := LogAt(cap, steps, n);
    && l.cap == cap
    && l.ring == Last(Fallbacks(cap, steps, n), Max(1, cap))
    && |l.sink| + |l.ring| + l.dropped == Appends(steps, n) + (if cap == 0 && l.ring != [] then 1 else 0)
    && l.dropped <= n
    && SlowWarnings(cap, steps, n) <= (if l.degraded then 1 else 0)
    && (l.tail.Some? ==> l.degraded && l.tail.value in Fallbacks(cap, steps, n))
  }

  lemma AccountedStep(cap: nat, steps: seq<Step>, n: nat)
    requires 0 < n <= |steps| < U64_MAX && Accounted(cap, steps, n - 1)
    ensures Accounted(cap, steps, n)
  {
    hide Next, Fallback, Last;
    var l, s := LogAt(cap, steps, n - 1), steps[n - 1];
    LastBounded(Fallbacks(cap, steps, n - 1), Max(1, cap));
    NextCounts(l, s);
    if s.AppendRow? && Fallback(l, s.entry, s.io).Some? {
      var line := Fallback(l, s.entry, s.io).value;
      LastGrows(Fallbacks(cap, steps, n - 1), Max(1, cap), line);
      assert Fallbacks(cap, steps, n) == Fallbacks(cap, steps, n - 1) + [line];
    } else {
      assert Fallbacks(cap, steps, n) == Fallbacks(cap, steps, n - 1);
    }
  }

  /**
   * After any run: the ring holds the last lines sent to it, as many as its capacity but never fewer than one;
   * every row appended has its line in the sink, in the ring, or counted as dropped, and no row twice, except that a
   * ring of capacity 0, which still keeps one line, counts one drop too many; at most one warning was raised, and
   * only if the log is degraded; and so it is if a line was torn, which is then one of those sent to the ring.
   */
  lemma {:induction false} RowsAccounted(cap: nat, steps: seq<Step>, n: nat)
    requires n <= |steps| < U64_MAX
    ensures Accounted(cap, steps, n)
  {
    if n > 0 {
      RowsAccounted(cap, steps, n - 1);
      AccountedStep(cap, steps, n);
    }
  }

  /** Once the log has fallen back, the sink is never written again. */
  lemma {:induction false} SinkFrozen(cap: nat, steps: seq<Step>, m: nat, n: nat)
    requires m <= n <= |steps| && LogAt(cap, steps, m).degraded
    ensures LogAt(cap, steps, n).degraded
    ensures LogAt(cap, steps, n).sink == LogAt(cap, steps, m).sink && LogAt(cap, steps, n).tail == LogAt(cap, steps, m).tail
    decreases n
  {
    hide ValidateEntry;
    if m < n { SinkFrozen(cap, steps, m, n - 1); }
  }
}
