/** The body cap and the admission gate (api/main.py: BodyCap, ExtractAdmission). */
module BodyLimit {
  import opened Sums

  // ---------- decimal numbers ----------

  predicate IsDigit(c: char) {
    '0' <= c <= '9'
  }

  predicate AllDigits(s: string) {
    forall i :: 0 <= i < |s| ==> IsDigit(s[i])
  }

  // The number a digit string denotes; the empty string denotes zero.
  function Value(digits: string): nat
    requires AllDigits(digits)
  {
    if digits == "" then 0
    else Value(digits[..|digits| - 1]) * 10 + (digits[|digits| - 1] as int - '0' as int)
  }

  /** A digit more multiplies by ten and adds the digit. */
  lemma ValueIs(digits: string, d: char)
    requires AllDigits(digits) && IsDigit(d)
    ensures Value("") == 0 && Value(digits + [d]) == 10 * Value(digits) + (d as int - '0' as int)
  {
    assert (digits + [d])[..|digits|] == digits;
  }

  // str(n).
  function Decimal(n: nat): (s: string)
    ensures |s| >= 1 && AllDigits(s) && Value(s) == n
  {
    var last := ['0' + (n % 10) as char];
    if n < 10 then last
    else
      var s := Decimal(n / 10) + last;
      assert s[..|s| - 1] == Decimal(n / 10);
      s
  }

  function Pow10(n: nat): nat {
    if n == 0 then 1 else Pow10(n - 1) * 10
  }

  lemma {:induction false} Pow10Monotone(m: nat, n: nat)
    requires m <= n
    ensures 1 <= Pow10(m) <= Pow10(n)
  {
    if m < n {
      Pow10Monotone(m, n - 1);
    } else if 0 < n {
      Pow10Monotone(m - 1, n - 1);
    }
  }

  lemma {:induction false} ValueBelow(digits: string)
    requires AllDigits(digits)
    ensures Value(digits) < Pow10(|digits|)
  {
    if digits != "" {
      ValueBelow(digits[..|digits| - 1]);
    }
  }

  lemma {:induction false} ValueAbove(digits: string)
    requires AllDigits(digits) && digits != "" && digits[0] != '0'
    ensures Pow10(|digits| - 1) <= Value(digits)
  {
    if |digits| > 1 {
      ValueAbove(digits[..|digits| - 1]);
    } else {
      assert digits[..0] == "";
    }
  }

  // digits.lstrip(b"0")
  function StripZeros(digits: string): (r: string)
    requires AllDigits(digits)
    ensures AllDigits(r) && (r == "" || r[0] != '0')
  {
    if digits != "" && digits[0] == '0' then StripZeros(digits[1..]) else digits
  }

  lemma {:induction false} LeadingZero(digits: string)
    requires AllDigits(digits) && digits != "" && digits[0] == '0'
    ensures Value(digits[1..]) == Value(digits)
  {
    if |digits| > 1 {
      var init := digits[..|digits| - 1];
      LeadingZero(init);
      assert digits[1..][..|digits| - 2] == init[1..];
    } else {
      assert digits[..0] == "" && digits[1..] == "";
    }
  }

  lemma {:induction false} StripZerosKeepsValue(digits: string)
    requires AllDigits(digits)
    ensures Value(StripZeros(digits)) == Value(digits)
  {
    if digits != "" && digits[0] == '0' {
      LeadingZero(digits);
      StripZerosKeepsValue(digits[1..]);
    }
  }

  // int() refuses longer strings, so it must not be handed one.
  const INT_MAX_STR_DIGITS := 4300

  function Int(digits: string): nat
    requires AllDigits(digits) && 1 <= |digits| <= INT_MAX_STR_DIGITS
  {
    Value(digits)
  }

  // api/main.py:293-300. The limit was itself read with int() at startup.
  predicate Over(digits: string, limit: nat)
    requires AllDigits(digits) && |Decimal(limit)| <= INT_MAX_STR_DIGITS
  {
    var d := StripZeros(digits);
    |d| > |Decimal(limit)| || Int(if d == "" then "0" else d) > limit
  }

  /** The length-first test decides exactly whether the declared length exceeds the limit, for a digit
      string of any length, leading zeros included. */
  lemma OverIffExceeds(digits: string, limit: nat)
    requires AllDigits(digits) && |Decimal(limit)| <= INT_MAX_STR_DIGITS
    ensures Over(digits, limit) <==> Value(digits) > limit
  {
    var d := StripZeros(digits);
    StripZerosKeepsValue(digits);
    if |d| > |Decimal(limit)| {
      ValueBelow(Decimal(limit));
      ValueAbove(d);
      Pow10Monotone(|Decimal(limit)|, |d| - 1);
    } else if d == "" {
      assert Value("0") == 0 by { assert "0"[..0] == ""; }
    }
  }

  // ---------- counting a streamed body ----------

  function SizeOf(chunks: seq<nat>): nat {
    if chunks == [] then 0 else SizeOf(chunks[..|chunks| - 1]) + chunks[|chunks| - 1]
  }

  // Where the stream is cut: the first chunk whose running total passes the limit, if any.
  ghost predicate IsCut(chunks: seq<nat>, limit: nat, n: nat) {
    && n <= |chunks|
    && (forall k :: 0 <= k <= n ==> SizeOf(chunks[..k]) <= limit)
    && (n < |chunks| ==> SizeOf(chunks[..n + 1]) > limit)
  }

  lemma {:induction false} SizeMonotone(chunks: seq<nat>, m: nat, n: nat)
    requires m <= n <= |chunks|
    ensures SizeOf(chunks[..m]) <= SizeOf(chunks[..n])
  {
    if m < n {
      SizeMonotone(chunks, m, n - 1);
      assert chunks[..n][..n - 1] == chunks[..n - 1];
    }
  }

  // api/main.py:277-291: the receive wrapper of one request.
  class BodyCap {
    const limit: nat
    var received: nat

    constructor (limit: nat)
      ensures this.limit == limit && received == 0
    {
      this.limit := limit;
      received := 0;
    }

    // True when the chunk is handed on; false when _BodyTooLarge is raised.
    method Counted(chunk: nat) returns (ok: bool)
      modifies this`received
      ensures received == old(received) + chunk
      ensures ok <==> received <= limit
    {
      received := received + chunk;
      return !(received > limit);
    }

    // The application reading a whole body through the wrapper: what reaches it before it is cut off.
    method Stream(chunks: seq<nat>) returns (delivered: seq<nat>)
      requires received == 0
      modifies this`received
      ensures |delivered| <= |chunks| && delivered == chunks[..|delivered|]
      ensures IsCut(chunks, limit, |delivered|)
      ensures |delivered| < |chunks| <==> SizeOf(chunks) > limit
    {
      delivered := [];
      for n := 0 to |chunks|
        invariant delivered == chunks[..n] && received == SizeOf(chunks[..n])
        invariant forall k :: 0 <= k <= n ==> SizeOf(chunks[..k]) <= limit
      {
        assert chunks[..n + 1][..n] == chunks[..n];
        var ok := Counted(chunks[n]);
        if !ok {
          SizeMonotone(chunks, n + 1, |chunks|);
          assert chunks[..|chunks|] == chunks;
          return;
        }
        delivered := delivered + [chunks[n]];
      }
      assert chunks[..|chunks|] == chunks;
    }
  }

  // ---------- the gate: any number of guarded requests at once ----------

  type Id = nat

  // Chunks are those that have arrived so far, the one that broke the limit included.
  datatype Phase =
    | Queued
    | Streaming(chunks: seq<nat>)
    | Working(chunks: seq<nat>)
    | Cut(chunks: seq<nat>)
    | TurnedAway
    | Finished

  datatype Gate = Gate(slots: nat, limit: nat)
  // `handed` records what the application was handed of each body, whatever becomes of the request.
  datatype State = State(borrowed: int, reqs: map<Id, Phase>, handed: map<Id, seq<nat>>)

  datatype Action =
    | Arrive(id: Id, lengths: seq<string>)   // the digit strings of its Content-Length headers
    | Leave(id: Id)
    | Admit(id: Id)
    | Chunk(id: Id, size: nat)
    | EndOfBody(id: Id)
    | Finish(id: Id)

  ghost predicate Usable(g: Gate) {
    |Decimal(g.limit)| <= INT_MAX_STR_DIGITS
  }

  ghost predicate Enabled(g: Gate, s: State, a: Action) {
    match a
    case Arrive(id, lengths) => id !in s.reqs && forall i :: 0 <= i < |lengths| ==> AllDigits(lengths[i])
    case Leave(id) => id in s.reqs && s.reqs[id].Queued?
    case Admit(id) => id in s.reqs && s.reqs[id].Queued? && s.borrowed < g.slots
    case Chunk(id, _) => id in s.reqs && s.reqs[id].Streaming?
    case EndOfBody(id) => id in s.reqs && s.reqs[id].Streaming?
    case Finish(id) => id in s.reqs && (s.reqs[id].Streaming? || s.reqs[id].Working?)
  }

  function Handed(s: State, id: Id): seq<nat> {
    if id in s.handed then s.handed[id] else []
  }

  // BodyCap is outside the gate: a declared oversize is refused before it queues, and the slot of a cut
  // request is given back.
  ghost function Do(g: Gate, s: State, a: Action): State
    requires Usable(g) && Enabled(g, s, a)
  {
    match a
    case Arrive(id, lengths) =>
      var over := exists i :: 0 <= i < |lengths| && Over(lengths[i], g.limit);
      s.(reqs := s.reqs[id := if over then TurnedAway else Queued], handed := s.handed[id := []])
    case Leave(id) => s.(reqs := s.reqs[id := Finished])
    case Admit(id) => s.(borrowed := s.borrowed + 1, reqs := s.reqs[id := Streaming([])])
    case Chunk(id, size) =>
      var chunks := s.reqs[id].chunks + [size];
      if SizeOf(chunks) > g.limit then
        s.(borrowed := s.borrowed - 1, reqs := s.reqs[id := Cut(chunks)])
      else
        s.(reqs := s.reqs[id := Streaming(chunks)], handed := s.handed[id := Handed(s, id) + [size]])
    case EndOfBody(id) => s.(reqs := s.reqs[id := Working(s.reqs[id].chunks)])
    case Finish(id) => s.(borrowed := s.borrowed - 1, reqs := s.reqs[id := Finished])
  }

  ghost predicate IsRun(g: Gate, states: seq<State>, actions: seq<Action>) {
    && Usable(g)
    && |states| == |actions| + 1
    && states[0] == State(0, map[], map[])
    && forall i :: 0 <= i < |actions| ==>
         Enabled(g, states[i], actions[i]) && states[i + 1] == Do(g, states[i], actions[i])
  }

  predicate InFlight(p: Phase) {
    p.Streaming? || p.Working?
  }

  // The body bytes the application has been handed and may still hold: those of requests in flight.
  function Held(s: State, id: Id): nat
    requires id in s.reqs
  {
    if InFlight(s.reqs[id]) then SizeOf(Handed(s, id)) else 0
  }

  ghost function Flying(reqs: map<Id, Phase>): set<Id> {
    set id | id in reqs && InFlight(reqs[id])
  }

  ghost function HeldBytes(s: State): map<Id, real> {
    map id | id in s.reqs :: Held(s, id) as real
  }

  // What was handed on, by how far the request has come.
  ghost predicate PhaseOk(g: Gate, p: Phase, handed: seq<nat>) {
    match p
    case Queued => handed == []
    case TurnedAway => handed == []
    case Streaming(chunks) => handed == chunks && IsCut(chunks, g.limit, |chunks|)
    case Working(chunks) => handed == chunks && IsCut(chunks, g.limit, |chunks|)
    case Cut(chunks) =>
      |chunks| > 0 && handed == chunks[..|chunks| - 1] && IsCut(chunks, g.limit, |chunks| - 1)
    case Finished => true
  }

  ghost predicate Ok(g: Gate, s: State) {
    && s.borrowed == |Flying(s.reqs)| <= g.slots
    && forall id :: id in s.reqs ==> PhaseOk(g, s.reqs[id], Handed(s, id))
  }

  lemma FlyingUpdate(reqs: map<Id, Phase>, id: Id, p: Phase)
    ensures |Flying(reqs[id := p])| ==
            |Flying(reqs)| - (if id in reqs && InFlight(reqs[id]) then 1 else 0) + (if InFlight(p) then 1 else 0)
  {
    var before, after := Flying(reqs), Flying(reqs[id := p]);
    assert before - {id} == after - {id};
    SizeUpdate(before, after, id);
  }

  lemma ChunkPhaseOk(g: Gate, chunks: seq<nat>, size: nat)
    requires IsCut(chunks, g.limit, |chunks|)
    ensures var more := chunks + [size];
            if SizeOf(more) > g.limit then PhaseOk(g, Cut(more), chunks) else PhaseOk(g, Streaming(more), more)
  {
    var more := chunks + [size];
    assert more[..|more|] == more;
    forall k | 0 <= k <= |chunks| ensures SizeOf(more[..k]) <= g.limit {
      assert more[..k] == chunks[..k];
    }
  }

  lemma SlotStep(g: Gate, s: State, a: Action)
    requires Usable(g) && Enabled(g, s, a) && s.borrowed == |Flying(s.reqs)| <= g.slots
    ensures Do(g, s, a).borrowed == |Flying(Do(g, s, a).reqs)| <= g.slots
  {
    var after := Do(g, s, a).reqs[a.id];
    FlyingUpdate(s.reqs, a.id, after);
    assert Do(g, s, a).reqs == s.reqs[a.id := after];
  }

  lemma MovedPhaseOk(g: Gate, s: State, a: Action)
    requires Usable(g) && Enabled(g, s, a)
    requires a.id in s.reqs ==> PhaseOk(g, s.reqs[a.id], Handed(s, a.id))
    ensures PhaseOk(g, Do(g, s, a).reqs[a.id], Handed(Do(g, s, a), a.id))
  {
    if a.Chunk? {
      ChunkPhaseOk(g, s.reqs[a.id].chunks, a.size);
    }
  }

  lemma OkStep(g: Gate, s: State, a: Action)
    requires Usable(g) && Ok(g, s) && Enabled(g, s, a)
    ensures Ok(g, Do(g, s, a))
  {
    var s' := Do(g, s, a);
    SlotStep(g, s, a);
    MovedPhaseOk(g, s, a);
    forall id | id in s'.reqs && id != a.id ensures PhaseOk(g, s'.reqs[id], Handed(s', id)) {
      assert s'.reqs[id] == s.reqs[id] && Handed(s', id) == Handed(s, id);
    }
  }

  lemma {:induction false} OkAlways(g: Gate, states: seq<State>, actions: seq<Action>, i: nat)
    requires IsRun(g, states, actions) && i < |states|
    ensures Ok(g, states[i])
  {
    if i == 0 {
      assert Flying(states[0].reqs) == {};
    } else {
      OkAlways(g, states, actions, i - 1);
      OkStep(g, states[i - 1], actions[i - 1]);
    }
  }

  lemma {:induction false} TotalWithin(m: map<Id, real>, members: set<Id>, bound: real)
    requires 0.0 <= bound
    requires forall k :: k in m ==> m[k] <= if k in members then bound else 0.0
    ensures Total(m) <= Repeat(bound, |members|)
    decreases |m|
  {
    if m == map[] {
      RepeatMonotone(bound, 0, |members|);
    } else {
      var k :| k in m;
      TotalSplit(m, k);
      TotalWithin(m - {k}, members - {k}, bound);
      if k in members {
        assert |members| == |members - {k}| + 1;
      } else {
        assert members - {k} == members;
      }
    }
  }

  lemma HeldWithin(g: Gate, s: State)
    requires Ok(g, s)
    ensures Total(HeldBytes(s)) <= Repeat(g.limit as real, g.slots)
  {
    forall id | id in s.reqs
      ensures Held(s, id) as real <= if id in Flying(s.reqs) then g.limit as real else 0.0
    {
      assert PhaseOk(g, s.reqs[id], Handed(s, id));
      if InFlight(s.reqs[id]) {
        var chunks := s.reqs[id].chunks;
        assert chunks[..|chunks|] == chunks;
      }
    }
    TotalWithin(HeldBytes(s), Flying(s.reqs), g.limit as real);
    RepeatMonotone(g.limit as real, |Flying(s.reqs)|, g.slots);
  }

  // ---------- the theorems ----------

  /** In every state of every run, the body bytes handed to the application for requests in flight total at
      most the body limit once for each slot (a product, by RepeatIsProduct). */
  lemma MemoryBounded(g: Gate, states: seq<State>, actions: seq<Action>, i: nat)
    requires IsRun(g, states, actions) && i < |states|
    ensures Total(HeldBytes(states[i])) <= Repeat(g.limit as real, g.slots)
  {
    OkAlways(g, states, actions, i);
    HeldWithin(g, states[i]);
  }

  /** The application has been handed nothing of a queued or turned-away request, and of a cut one exactly
      the chunks before the first whose running total passes the limit. */
  lemma CutAtFirstExcess(g: Gate, states: seq<State>, actions: seq<Action>, i: nat, id: Id)
    requires IsRun(g, states, actions) && i < |states| && id in states[i].reqs
    ensures states[i].reqs[id].Queued? || states[i].reqs[id].TurnedAway? ==> Handed(states[i], id) == []
    ensures states[i].reqs[id].Cut? ==>
              var chunks := states[i].reqs[id].chunks;
              && |chunks| > 0 && IsCut(chunks, g.limit, |chunks| - 1)
              && Handed(states[i], id) == chunks[..|chunks| - 1]
  {
    OkAlways(g, states, actions, i);
    assert PhaseOk(g, states[i].reqs[id], Handed(states[i], id));
  }

  /** A request is turned away unread exactly when some declared length exceeds the limit. */
  lemma TurnedAwayIffDeclaredOver(g: Gate, s: State, id: Id, lengths: seq<string>)
    requires Usable(g) && Enabled(g, s, Arrive(id, lengths))
    ensures Do(g, s, Arrive(id, lengths)).reqs[id] ==
            if exists i :: 0 <= i < |lengths| && Value(lengths[i]) > g.limit then TurnedAway else Queued
  {
    forall i | 0 <= i < |lengths| ensures Over(lengths[i], g.limit) <==> Value(lengths[i]) > g.limit {
      OverIffExceeds(lengths[i], g.limit);
    }
  }
}
