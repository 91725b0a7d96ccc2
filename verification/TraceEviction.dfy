/** Bounded execution traces: which events are dropped when more than 128 arrive. */
module TraceEviction {
  import opened Options

  const MAX_EVENTS := 128

  /** A trace event as it arrives; `rest` is what is not looked at here. */
  datatype TraceEvent =
    | Entry(event: string, kind: Option<string>, subtype: Option<string>,
            requestCount: Option<nat>, requestIndex: Option<nat>, rest: string)
    | NotAnEntry

  const EVENT_NAMES: set<string> := {
    "runner_started", "runner_error", "runner_finished", "stdout_event",
    "upstream_request_start", "upstream_response_headers", "upstream_response_first_body_chunk",
    "upstream_response_last_body_chunk", "upstream_response_end", "upstream_response_error", "upstream_sse_event",
    "upstream_response_progress", "child_spawn", "child_error", "child_exit", "child_close", "proxy_close_start",
    "proxy_close_error", "proxy_close_end"}

  /** `traceEventEvictionPriority`. */
  function Priority(e: TraceEvent): nat {
    if e.NotAnEntry? then 2
    else if e.event == "upstream_response_progress" then 0
    else if e.event == "stdout_event" then
      if e.kind == Some("system") && e.subtype != Some("init") && e.subtype != Some("hook_response") then 0
      else if e.kind != Some("result") then 1
      else 2
    else 2
  }

  // ---- Eviction one by one ----

  /** The first event of the lowest priority. */
  function Victim(s: seq<TraceEvent>): (m: nat)
    requires s != []
    ensures m < |s|
    ensures forall j :: 0 <= j < m ==> Priority(s[j]) > Priority(s[m])
    ensures forall j :: m <= j < |s| ==> Priority(s[j]) >= Priority(s[m])
  {
    if |s| == 1 then 0
    else
      var m := Victim(s[..|s| - 1]);
      if Priority(s[|s| - 1]) < Priority(s[m]) then |s| - 1 else m
  }

  function Without<T>(s: seq<T>, i: nat): (r: seq<T>)
    requires i < |s|
    ensures |r| == |s| - 1
  {
    s[..i] + s[i + 1..]
  }

  function Trimmed(s: seq<TraceEvent>, limit: nat): seq<TraceEvent>
    decreases |s|
  {
    if |s| <= limit then s else Trimmed(Without(s, Victim(s)), limit)
  }

  // ---- The source's two eviction loops ----

  /** `findIndex`. */
  function FindIndex(s: seq<TraceEvent>, chosen: TraceEvent -> bool): (at: Option<nat>)
    ensures at.Some? ==> at.value < |s| && chosen(s[at.value]) && forall j :: 0 <= j < at.value ==> !chosen(s[j])
    ensures at.None? ==> forall j :: 0 <= j < |s| ==> !chosen(s[j])
  {
    if s == [] then None
    else if chosen(s[0]) then Some(0)
    else
      assert forall j :: 1 <= j < |s| ==> s[j] == s[1..][j - 1];
      match FindIndex(s[1..], chosen)
      case Some(i) => Some(i + 1)
      case None => None
  }

  lemma VictimIs(s: seq<TraceEvent>, m: nat)
    requires m < |s|
    requires forall j :: 0 <= j < m ==> Priority(s[j]) > Priority(s[m])
    requires forall j :: m <= j < |s| ==> Priority(s[j]) >= Priority(s[m])
    ensures Victim(s) == m
  {
  }

  /** Dropping the first event of the lowest priority is one step of trimming. */
  lemma TrimStep(s: seq<TraceEvent>, m: nat, limit: nat)
    requires |s| > limit && m < |s|
    requires forall j :: 0 <= j < m ==> Priority(s[j]) > Priority(s[m])
    requires forall j :: m <= j < |s| ==> Priority(s[j]) >= Priority(s[m])
    ensures Trimmed(s, limit) == Trimmed(Without(s, m), limit)
  {
    VictimIs(s, m);
  }

  lemma TrimDone(s: seq<TraceEvent>, limit: nat)
    requires |s| <= limit
    ensures Trimmed(s, limit) == s
  {
  }

  predicate RunnerDropsFirst(e: TraceEvent) {
    e.Entry? &&
    (e.event == "upstream_response_progress"
     || (e.event == "stdout_event" && e.kind == Some("system")
         && e.subtype != Some("init") && e.subtype != Some("hook_response")))
  }

  predicate RunnerDropsNext(e: TraceEvent) {
    e.Entry? && e.event == "stdout_event" && e.kind != Some("result")
  }

  class TraceBuffer {
    var events: seq<TraceEvent>

    constructor ()
      ensures events == []
    {
      events := [];
    }

    /** `trimBoundedTraceEvents`. */
    method Trim()
      modifies this
      ensures events == Trimmed(old(events), MAX_EVENTS)
    {
      hide Trimmed;
      while |events| > MAX_EVENTS
        invariant Trimmed(events, MAX_EVENTS) == Trimmed(old(events), MAX_EVENTS)
        decreases |events|
      {
        var low := FindIndex(events, e => Priority(e) == 0);
        var stdout := FindIndex(events, e => Priority(e) == 1);
        if low.Some? {
          TrimStep(events, low.value, MAX_EVENTS);
          events := Without(events, low.value);
        } else if stdout.Some? {
          TrimStep(events, stdout.value, MAX_EVENTS);
          events := Without(events, stdout.value);
        } else {
          TrimStep(events, 0, MAX_EVENTS);
          assert Without(events, 0) == events[1..];
          events := events[1..];
        }
      }
      TrimDone(events, MAX_EVENTS);
    }

    /** One trace line read: add it, then trim. */
    method Push(e: TraceEvent)
      modifies this
      ensures events == Trimmed(old(events) + [e], MAX_EVENTS)
    {
      hide Trimmed;
      events := events + [e];
      Trim();
    }

    /** The runner's own `emit`, with its own eviction; an event of another name is dropped. */
    method Emit(e: TraceEvent)
      requires e.Entry?
      modifies this
      ensures events == if e.event in EVENT_NAMES then Trimmed(old(events) + [e], MAX_EVENTS) else old(events)
    {
      hide Trimmed;
      if e.event !in EVENT_NAMES { return; }
      events := events + [e];
      ghost var start := events;
      while |events| > MAX_EVENTS
        invariant Trimmed(events, MAX_EVENTS) == Trimmed(start, MAX_EVENTS)
        decreases |events|
      {
        var low := FindIndex(events, RunnerDropsFirst);
        var stdout := FindIndex(events, RunnerDropsNext);
        if low.Some? {
          TrimStep(events, low.value, MAX_EVENTS);
          events := Without(events, low.value);
        } else if stdout.Some? {
          TrimStep(events, stdout.value, MAX_EVENTS);
          events := Without(events, stdout.value);
        } else {
          TrimStep(events, 0, MAX_EVENTS);
          assert Without(events, 0) == events[1..];
          events := events[1..];
        }
      }
      TrimDone(events, MAX_EVENTS);
    }
  }

  // ---- Trimming as one goes is trimming once ----

  lemma VictimOfPushed(s: seq<TraceEvent>, e: TraceEvent)
    requires s != []
    ensures Victim(s + [e]) == if Priority(e) < Priority(s[Victim(s)]) then |s| else Victim(s)
  {
    assert (s + [e])[..|s|] == s;
  }

  lemma WithoutOfPushed<T>(s: seq<T>, e: T, i: nat)
    requires i <= |s|
    ensures Without(s + [e], i) == if i == |s| then s else Without(s, i) + [e]
  {
  }

  lemma {:induction false} TrimmedKeepsPriorities(s: seq<TraceEvent>, limit: nat, least: nat)
    requires forall j :: 0 <= j < |s| ==> Priority(s[j]) >= least
    ensures |Trimmed(s, limit)| == if |s| <= limit then |s| else limit
    ensures forall j :: 0 <= j < |Trimmed(s, limit)| ==> Priority(Trimmed(s, limit)[j]) >= least
    decreases |s|
  {
    if |s| > limit {
      TrimmedKeepsPriorities(Without(s, Victim(s)), limit, least);
    }
  }

  lemma {:induction false} PushAfterTrim(s: seq<TraceEvent>, e: TraceEvent, limit: nat)
    requires limit > 0
    ensures Trimmed(Trimmed(s, limit) + [e], limit) == Trimmed(s + [e], limit)
    decreases |s|
  {
    if |s| > limit {
      var m := Victim(s);
      VictimOfPushed(s, e);
      if Priority(e) < Priority(s[m]) {
        WithoutOfPushed(s, e, |s|);
        var t := Trimmed(s, limit);
        TrimmedKeepsPriorities(s, limit, Priority(s[m]));
        VictimIs(t + [e], |t|);
        WithoutOfPushed(t, e, |t|);
      } else {
        WithoutOfPushed(s, e, m);
        PushAfterTrim(Without(s, m), e, limit);
      }
    }
  }

  function PushedOneByOne(events: seq<TraceEvent>, limit: nat): seq<TraceEvent> {
    if events == [] then []
    else Trimmed(PushedOneByOne(events[..|events| - 1], limit) + [events[|events| - 1]], limit)
  }

  /** Trimming after every event leaves what trimming once at the end leaves. */
  lemma {:induction false} StreamingIsTrimmingOnce(events: seq<TraceEvent>, limit: nat)
    requires limit > 0
    ensures PushedOneByOne(events, limit) == Trimmed(events, limit)
  {
    hide Trimmed;
    TrimDone([], limit);
    if events != [] {
      var init, e := events[..|events| - 1], events[|events| - 1];
      StreamingIsTrimmingOnce(init, limit);
      PushAfterTrim(init, e, limit);
      assert init + [e] == events;
    }
  }

  // ---- Trimming keeps the greatest ----

  /** By priority, later events before earlier ones of the same priority. */
  ghost predicate Less(s: seq<TraceEvent>, i: nat, j: nat)
    requires i < |s| && j < |s|
  {
    Priority(s[i]) < Priority(s[j]) || (Priority(s[i]) == Priority(s[j]) && i < j)
  }

  ghost predicate Positions(s: seq<TraceEvent>, at: seq<nat>) {
    && (forall i :: 0 <= i < |at| ==> at[i] < |s|)
    && (forall i, j :: 0 <= i < j < |at| ==> at[i] < at[j])
  }

  ghost function Pick(s: seq<TraceEvent>, at: seq<nat>): (picked: seq<TraceEvent>)
    requires Positions(s, at)
    ensures |picked| == |at| && forall i :: 0 <= i < |at| ==> picked[i] == s[at[i]]
  {
    seq(|at|, i requires 0 <= i < |at| => s[at[i]])
  }

  /** `kept` are the `limit` greatest of the positions `at`. */
  ghost predicate Greatest(s: seq<TraceEvent>, at: seq<nat>, kept: seq<nat>, limit: nat)
    requires Positions(s, at)
  {
    && Positions(s, kept) && |kept| == (if |at| <= limit then |at| else limit)
    && (forall k :: k in kept ==> k in at)
    && (forall j, k :: j in at && j !in kept && k in kept ==> Less(s, j, k))
  }

  lemma VictimIsLeast(s: seq<TraceEvent>, at: seq<nat>)
    requires Positions(s, at) && at != []
    ensures forall k :: k in at ==> k == at[Victim(Pick(s, at))] || Less(s, at[Victim(Pick(s, at))], k)
  {
    var m := Victim(Pick(s, at));
    forall k | k in at ensures k == at[m] || Less(s, at[m], k) {
      var i :| 0 <= i < |at| && at[i] == k;
      assert Pick(s, at)[i] == s[k];
    }
  }

  lemma WithoutPosition(s: seq<TraceEvent>, at: seq<nat>, m: nat)
    requires Positions(s, at) && m < |at|
    ensures Positions(s, Without(at, m)) && Pick(s, Without(at, m)) == Without(Pick(s, at), m)
    ensures forall k :: k in at <==> k == at[m] || k in Without(at, m)
    ensures at[m] !in Without(at, m)
  {
    var rest := Without(at, m);
    assert forall i :: 0 <= i < |rest| ==> rest[i] == if i < m then at[i] else at[i + 1];
    assert at == at[..m] + [at[m]] + at[m + 1..];
  }

  lemma {:induction false} TrimPositions(s: seq<TraceEvent>, at: seq<nat>, limit: nat) returns (kept: seq<nat>)
    requires Positions(s, at)
    ensures Greatest(s, at, kept, limit) && Trimmed(Pick(s, at), limit) == Pick(s, kept)
    decreases |at|
  {
    if |at| <= limit {
      kept := at;
    } else {
      var m := Victim(Pick(s, at));
      WithoutPosition(s, at, m);
      VictimIsLeast(s, at);
      kept := TrimPositions(s, Without(at, m), limit);
    }
  }

  /** What trimming keeps, in order: the 128 greatest events under priority and position. */
  lemma TrimmedAreTheGreatest(s: seq<TraceEvent>, limit: nat) returns (kept: seq<nat>)
    ensures Positions(s, kept) && |kept| == (if |s| <= limit then |s| else limit)
    ensures Trimmed(s, limit) == Pick(s, kept)
    ensures forall j, k: nat :: 0 <= j < |s| && j !in kept && k in kept ==> Less(s, j, k)
  {
    hide Trimmed, Less;
    var all := EveryPosition(s);
    kept := TrimPositions(s, all, limit);
  }

  lemma EveryPosition(s: seq<TraceEvent>) returns (all: seq<nat>)
    ensures Positions(s, all) && |all| == |s| && Pick(s, all) == s
    ensures forall j :: 0 <= j < |s| ==> j in all
  {
    all := seq(|s|, i requires 0 <= i < |s| => i);
    forall j | 0 <= j < |s| ensures j in all {
      assert all[j] == j;
    }
  }

  // ---- Reading a trace ----

  /** Parsing of a line after its prefix, and cleaning of an event; either may reject. */
  datatype Readers = Readers(parse: string -> Option<TraceEvent>, clean: TraceEvent -> Option<TraceEvent>)

  function Accepted<T>(items: seq<T>, read: T -> Option<TraceEvent>): (r: seq<TraceEvent>)
    ensures |r| <= |items|
  {
    if items == [] then []
    else
      var before := Accepted(items[..|items| - 1], read);
      match read(items[|items| - 1])
      case Some(e) => before + [e]
      case None => before
  }

  lemma AcceptedNext<T>(items: seq<T>, n: nat, read: T -> Option<TraceEvent>)
    requires n < |items|
    ensures Accepted(items[..n + 1], read) ==
      match read(items[n])
      case Some(e) => Accepted(items[..n], read) + [e]
      case None => Accepted(items[..n], read)
  {
    assert items[..n + 1][..n] == items[..n];
  }

  lemma NothingYet(readers: Readers)
    ensures Accepted([], readers.parse) == [] && Accepted([], readers.clean) == [] && Trimmed([], MAX_EVENTS) == []
  {
  }

  // ---- The number of requests ----

  function Max(a: nat, b: Option<nat>): nat {
    if b.Some? && a < b.value then b.value else a
  }

  predicate StartsRequest(e: TraceEvent) {
    e.Entry? && e.event == "upstream_request_start"
  }

  /** The count after one more event: a start counts one, and no event counts less than it says. */
  function CountNext(count: nat, e: TraceEvent): nat {
    if e.NotAnEntry? then count
    else Max(Max(if StartsRequest(e) then count + 1 else count, e.requestCount), e.requestIndex)
  }

  function CountOf(events: seq<TraceEvent>): nat {
    if events == [] then 0 else CountNext(CountOf(events[..|events| - 1]), events[|events| - 1])
  }

  function Starts(events: seq<TraceEvent>): nat {
    if events == [] then 0
    else Starts(events[..|events| - 1]) + if StartsRequest(events[|events| - 1]) then 1 else 0
  }

  /** No event of the list says more than `limit`. */
  predicate SaysAtMost(events: seq<TraceEvent>, limit: nat) {
    forall i :: 0 <= i < |events| && events[i].Entry? ==>
      Max(0, events[i].requestCount) <= limit && Max(0, events[i].requestIndex) <= limit
  }

  /**
   * The request count is no less than the number of starts and than what any event says, and exceeds the most
   * that any event says by no more than the number of starts.
   */
  lemma {:induction false} CountIsBounded(events: seq<TraceEvent>, limit: nat)
    ensures Starts(events) <= CountOf(events) && SaysAtMost(events, CountOf(events))
    ensures SaysAtMost(events, limit) ==> CountOf(events) <= limit + Starts(events)
  {
    if events != [] {
      var init := events[..|events| - 1];
      CountIsBounded(init, limit);
      assert forall i :: 0 <= i < |init| ==> init[i] == events[i];
    }
  }

  /** `traceRequestCount`. */
  method CountRequests(events: seq<TraceEvent>, supplied: Option<nat>) returns (count: nat)
    ensures count == Max(CountOf(events), supplied)
  {
    count := 0;
    for i := 0 to |events|
      invariant count == CountOf(events[..i])
    {
      assert events[..i + 1][..i] == events[..i];
      var e := events[i];
      if e.Entry? {
        if e.event == "upstream_request_start" { count := count + 1; }
        count := Max(count, e.requestCount);
        count := Max(count, e.requestIndex);
      }
    }
    assert events[..|events|] == events;
    count := Max(count, supplied);
  }

  /** A trace that is attached to a diagnostic. */
  datatype Trace = Trace(requestCount: nat, events: seq<TraceEvent>)

  function TraceOf(events: seq<TraceEvent>, supplied: Option<nat>): Option<Trace> {
    if events == [] then None else Some(Trace(Max(CountOf(events), supplied), events))
  }

  /** `sanitizeMeetingMinutesExecutionTrace` on a list of events; there is no trace without events. */
  method Sanitize(raw: seq<TraceEvent>, supplied: Option<nat>, readers: Readers) returns (trace: Option<Trace>)
    ensures trace == TraceOf(Trimmed(Accepted(raw, readers.clean), MAX_EVENTS), supplied)
  {
    hide Trimmed, CountOf;
    var buffer := new TraceBuffer();
    for i := 0 to |raw|
      invariant buffer.events == Accepted(raw[..i], readers.clean)
    {
      AcceptedNext(raw, i, readers.clean);
      var cleaned := readers.clean(raw[i]);
      if cleaned.Some? { buffer.events := buffer.events + [cleaned.value]; }
    }
    assert raw[..|raw|] == raw;
    buffer.Trim();
    if buffer.events == [] { return None; }
    var count := CountRequests(buffer.events, supplied);
    trace := Some(Trace(count, buffer.events));
  }

  /** `parseMeetingMinutesExecutionTrace`: the cleaned form of the greatest events among all lines. */
  method ParseTrace(lines: seq<string>, readers: Readers) returns (trace: Option<Trace>)
    ensures trace == TraceOf(Accepted(Trimmed(Accepted(lines, readers.parse), MAX_EVENTS), readers.clean), None)
  {
    hide Trimmed, Accepted, TraceOf;
    var buffer := new TraceBuffer();
    NothingYet(readers);
    assert lines[..0] == [];
    for i := 0 to |lines|
      invariant buffer.events == Trimmed(Accepted(lines[..i], readers.parse), MAX_EVENTS)
    {
      AcceptedNext(lines, i, readers.parse);
      var parsed := readers.parse(lines[i]);
      if parsed.Some? {
        PushAfterTrim(Accepted(lines[..i], readers.parse), parsed.value, MAX_EVENTS);
        buffer.Push(parsed.value);
      }
    }
    assert lines[..|lines|] == lines;
    TrimmedKeepsPriorities(Accepted(lines, readers.parse), MAX_EVENTS, 0);
    trace := Sanitize(buffer.events, None, readers);
    TrimDone(Accepted(buffer.events, readers.clean), MAX_EVENTS);
  }
}
