/**
 The execution history sent to the model, and its compression
 (app/core/compressor.py; the message shapes of app/graph/nodes.py).
 */
module Messages {
  import opened Basics

  /** Error codes of app/core/errors.py. */
  datatype ErrorCode =
    | Timeout | Network | RateLimited | Upstream5xx | Upstream4xx
    | Auth | Permission | NotFound | InvalidArgs | Unknown

  /** A tool call as requested by the model; `parseError` is empty when the arguments were readable. */
  datatype Call = Call(id: string, name: string, args: string, parseError: string)

  /** What a tool handed back; `budget` is the token count of a delegated sub-task. */
  datatype ToolResult = ToolResult(summary: string, body: string, budget: nat)

  datatype ErrorType = Validation | Runtime

  datatype Observation =
    | Success(tool: string, args: string, result: ToolResult)
    | Failure(tool: string, args: string, error: string, errorType: ErrorType, code: Option<ErrorCode>)

  /** The content of a tool message, before it is rendered as text. */
  datatype Payload =
    | ResultPayload(result: ToolResult)
    | ErrorPayload(error: string, code: Option<ErrorCode>)

  datatype Message =
    | System(text: string)
    | User(text: string)
    | Assistant(text: string, calls: seq<Call>)
    | Tool(callId: string, name: string, payload: Payload)

  // ---------- markers in error texts ----------

  predicate Contains(text: string, marker: string) {
    marker <= text || (text != [] && Contains(text[1..], marker))
  }

  function Lower(c: char): (l: char) {
    if 'A' <= c <= 'Z' then (c as int + 32) as char else c
  }

  function Lowered(text: string): (r: string)
    ensures |r| == |text|
  {
    seq(|text|, i requires 0 <= i < |text| => Lower(text[i]))
  }

  /** A marker that has no separator in it cannot lie across one. */
  lemma {:induction false} ContainsAcross(a: string, b: string, marker: string)
    requires marker != "" && ';' !in marker && marker[0] != ' '
    ensures Contains(a + "; " + b, marker) <==> Contains(a, marker) || Contains(b, marker)
  {
    var text := a + "; " + b;
    if a == "" {
      assert text[0] == ';' && text[1] == ' ' && text[1..][1..] == b;
      assert !(marker <= text) && !(marker <= text[1..]);
    } else {
      ContainsAcross(a[1..], b, marker);
      assert text[1..] == a[1..] + "; " + b;
      assert text[|a|] == ';';
      assert marker <= text <==> marker <= a;
    }
  }

  /** The text heuristic for transient failures (app/core/retry.py `looks_transient`). */
  predicate LooksTransient(text: string) {
    MarkedTransient(Lowered(text))
  }

  predicate MarkedTransient(lowered: string) {
    || Contains(lowered, "timeout") || Contains(lowered, "超时") || Contains(lowered, "connection")
    || Contains(lowered, "网络") || Contains(lowered, "temporarily")
  }

  // ---------- pairing ----------

  /** From position `at` on, `ms` holds tool messages for `calls`, one each and in call order. */
  predicate Answered(calls: seq<Call>, ms: seq<Message>, at: nat) {
    && at + |calls| <= |ms|
    && forall k :: at <= k < at + |calls| ==> ms[k].Tool? && ms[k].callId == calls[k - at].id
  }

  /** The messages of the first group: a request with its answers, or a single message. */
  function GroupSize(ms: seq<Message>): (n: nat)
    requires ms != []
    ensures n >= 1
  {
    if ms[0].Assistant? then 1 + |ms[0].calls| else 1
  }

  /** The list starts with a request and its answers, or with a message that is no answer. */
  predicate StartsWithGroup(ms: seq<Message>)
    requires ms != []
  {
    !ms[0].Tool? && (ms[0].Assistant? ==> Answered(ms[0].calls, ms, 1))
  }

  /**
   Every request for tools is followed by exactly its answers, and no answer lacks its request: the shape
   that model endpoints accept.
   */
  predicate WellPaired(ms: seq<Message>)
    decreases |ms|
  {
    ms == [] || (StartsWithGroup(ms) && GroupSize(ms) <= |ms| && WellPaired(ms[GroupSize(ms)..]))
  }

  lemma {:induction false} PairedAppend(a: seq<Message>, b: seq<Message>)
    requires WellPaired(a) && WellPaired(b)
    ensures WellPaired(a + b)
    decreases |a|
  {
    if a == [] {
      assert a + b == b;
    } else {
      hide GroupSize, StartsWithGroup;
      var n := GroupSize(a);
      PairedAppend(a[n..], b);
      assert (a + b)[n..] == a[n..] + b;
      GroupStays(a, b);
    }
  }

  /** Appending does not touch the first group. */
  lemma GroupStays(a: seq<Message>, b: seq<Message>)
    requires a != [] && StartsWithGroup(a)
    ensures StartsWithGroup(a + b) && GroupSize(a + b) == GroupSize(a)
  {
    assert (a + b)[0] == a[0];
  }

  /** A suffix that does not start in the middle of a group is again well paired. */
  lemma {:induction false} PairedSuffix(ms: seq<Message>, i: nat)
    requires WellPaired(ms) && i <= |ms|
    requires i == |ms| || !ms[i].Tool?
    ensures WellPaired(ms[i..])
    decreases |ms|
  {
    if i == 0 {
      assert ms[i..] == ms;
    } else {
      var n := GroupSize(ms);
      if i >= n {
        assert i < |ms| ==> ms[n..][i - n] == ms[i];
        PairedSuffix(ms[n..], i - n);
        assert ms[n..][i - n..] == ms[i..];
      }
    }
  }

  lemma SingleGroup(ms: seq<Message>)
    requires ms != [] && StartsWithGroup(ms) && GroupSize(ms) == |ms|
    ensures WellPaired(ms)
  {
    assert ms[|ms|..] == [];
  }

  /** A finished round: the history, the request and its answers. */
  lemma PairedRound(ms: seq<Message>, request: Message, answers: seq<Message>)
    requires WellPaired(ms) && request.Assistant?
    requires Answered(request.calls, answers, 0) && |answers| == |request.calls|
    ensures WellPaired(ms + [request] + answers)
  {
    var round := [request] + answers;
    assert Answered(request.calls, round, 1) by {
      assert forall k :: 1 <= k < |round| ==> round[k] == answers[k - 1];
    }
    SingleGroup(round);
    PairedAppend(ms, round);
    assert ms + [request] + answers == ms + round;
  }

  // ---------- compression ----------

  const KEEP_RECENT_WINDOW := 6

  /** The messages that are (or are not) system prompts, in order. */
  function Select(ms: seq<Message>, system: bool): (r: seq<Message>)
    ensures |r| <= |ms|
  {
    if ms == [] then []
    else if ms[0].System? == system then [ms[0]] + Select(ms[1..], system)
    else Select(ms[1..], system)
  }

  /** The first position from `i` on that does not hold a tool message. */
  function SkipTools(ms: seq<Message>, i: nat): (j: nat)
    requires i <= |ms|
    ensures i <= j <= |ms|
    ensures j < |ms| ==> !ms[j].Tool?
    ensures forall k :: i <= k < j ==> ms[k].Tool?
    decreases |ms| - i
  {
    if i < |ms| && ms[i].Tool? then SkipTools(ms, i + 1) else i
  }

  /** Where the kept window of a history starts. */
  function WindowStart(history: seq<Message>): (cut: nat)
    ensures cut <= |history|
  {
    SkipTools(history, Max(0, |history| - KEEP_RECENT_WINDOW))
  }

  /** The compressed history; None when there is nothing to summarise. */
  function Compressed(ms: seq<Message>, summary: string): (r: Option<seq<Message>>) {
    var history := Select(ms, false);
    var cut := WindowStart(history);
    if cut == 0 then None
    else Some(Select(ms, true) + [User(summary)] + history[cut..])
  }

  /** The splitting loop of `compress_messages`: answers without their request join the summarised part. */
  method SplitWindow(history: seq<Message>) returns (mid: seq<Message>, recent: seq<Message>)
    ensures mid == history[..WindowStart(history)]
    ensures recent == history[WindowStart(history)..]
  {
    var cut: nat := Max(0, |history| - KEEP_RECENT_WINDOW);
    mid, recent := history[..cut], history[cut..];
    while recent != [] && recent[0].Tool?
      invariant cut <= |history| && mid == history[..cut] && recent == history[cut..]
      invariant SkipTools(history, cut) == WindowStart(history)
      decreases |recent|
    {
      mid, recent := mid + [recent[0]], recent[1..];
      cut := cut + 1;
    }
    assert recent != [] ==> recent[0] == history[cut];
  }

  /** `same` tells that the input is handed back untouched. */
  method CompressMessages(ms: seq<Message>, needed: bool, summary: string)
    returns (r: seq<Message>, same: bool)
    ensures same <==> !needed || Compressed(ms, summary).None?
    ensures same ==> r == ms
    ensures !same ==> r == Compressed(ms, summary).value
    ensures WellPaired(ms) ==> WellPaired(r)
  {
    if !needed { return ms, true; }
    var pinned, history := Select(ms, true), Select(ms, false);
    var mid, recent := SplitWindow(history);
    if mid == [] { return ms, true; }
    r, same := pinned + [User(summary)] + recent, false;
    if WellPaired(ms) { CompressionKeepsPairing(ms, summary); }
  }

  lemma {:induction false} SelectSystem(ms: seq<Message>)
    ensures WellPaired(Select(ms, true))
  {
    if ms != [] {
      SelectSystem(ms[1..]);
      if ms[0].System? {
        SingleGroup([ms[0]]);
        PairedAppend([ms[0]], Select(ms[1..], true));
      }
    }
  }

  function KeptIf(m: Message, system: bool): (r: seq<Message>) {
    if m.System? == system then [m] else []
  }

  lemma SelectCons(m: Message, rest: seq<Message>, system: bool)
    ensures Select([m] + rest, system) == KeptIf(m, system) + Select(rest, system)
  {
    assert ([m] + rest)[1..] == rest;
  }

  lemma {:induction false} SelectAppend(a: seq<Message>, b: seq<Message>, system: bool)
    ensures Select(a + b, system) == Select(a, system) + Select(b, system)
  {
    if a == [] {
      assert a + b == b;
    } else {
      var first, rest := a[0], a[1..];
      SelectAppend(rest, b, system);
      SelectConsAppend(first, rest, b, system);
      assert a == [first] + rest;
    }
  }

  lemma SelectConsAppend(m: Message, rest: seq<Message>, b: seq<Message>, system: bool)
    requires Select(rest + b, system) == Select(rest, system) + Select(b, system)
    ensures Select([m] + rest + b, system) == Select([m] + rest, system) + Select(b, system)
  {
    hide Select, KeptIf;
    SelectCons(m, rest + b, system);
    SelectCons(m, rest, system);
    assert [m] + rest + b == [m] + (rest + b);
  }

  lemma {:induction false} SelectAll(ms: seq<Message>)
    requires forall k :: 0 <= k < |ms| ==> !ms[k].System?
    ensures Select(ms, false) == ms
  {
    if ms != [] {
      SelectAll(ms[1..]);
    }
  }

  lemma FirstGroup(ms: seq<Message>)
    requires ms != [] && StartsWithGroup(ms)
    ensures GroupSize(ms) <= |ms| && WellPaired(ms[..GroupSize(ms)])
  {
    var group := ms[..GroupSize(ms)];
    assert StartsWithGroup(group);
    SingleGroup(group);
  }

  lemma FirstGroupSelected(ms: seq<Message>)
    requires ms != [] && StartsWithGroup(ms) && !ms[0].System?
    ensures GroupSize(ms) <= |ms| && Select(ms[..GroupSize(ms)], false) == ms[..GroupSize(ms)]
  {
    SelectAll(ms[..GroupSize(ms)]);
  }

  /** Taking system prompts out of a well-paired list leaves it well paired. */
  lemma {:induction false} SelectHistory(ms: seq<Message>)
    requires WellPaired(ms)
    ensures WellPaired(Select(ms, false))
    decreases |ms|
  {
    if ms != [] {
      var n := GroupSize(ms);
      var group, rest := ms[..n], ms[n..];
      SelectHistory(rest);
      FirstGroup(ms);
      assert ms == group + rest;
      SelectAppend(group, rest, false);
      if ms[0].System? {
        assert group == [ms[0]] && Select(group, false) + Select(rest, false) == Select(rest, false);
      } else {
        FirstGroupSelected(ms);
        PairedAppend(group, Select(rest, false));
      }
    }
  }

  /** Compression never orphans an answer and never leaves a request unanswered. */
  lemma CompressionKeepsPairing(ms: seq<Message>, summary: string)
    requires WellPaired(ms) && Compressed(ms, summary).Some?
    ensures WellPaired(Compressed(ms, summary).value)
  {
    var pinned, history := Select(ms, true), Select(ms, false);
    var cut := WindowStart(history);
    SelectSystem(ms);
    SelectHistory(ms);
    PairedSuffix(history, cut);
    var note := [User(summary)];
    SingleGroup(note);
    PairedAppend(pinned, note);
    PairedAppend(pinned + note, history[cut..]);
  }

  /** What compression keeps: every system prompt and the last messages, at most a window of them. */
  lemma CompressionKeepsWindow(ms: seq<Message>, summary: string)
    requires Compressed(ms, summary).Some?
    ensures var r, pinned, history := Compressed(ms, summary).value, Select(ms, true), Select(ms, false);
            var kept := |r| - |pinned| - 1;
            && 0 <= kept <= KEEP_RECENT_WINDOW && kept < |history|
            && r == pinned + [User(summary)] + history[|history| - kept..]
            // what the window loses on its left are answers whose request was summarised
            && forall k :: Max(0, |history| - KEEP_RECENT_WINDOW) <= k < |history| - kept ==> history[k].Tool?
  {
  }
}
