/** The message history of the API agent: trimming by whole turns, then compacting single contents. */
module ApiHistory {
  import opened Text

  const MAX_HISTORY: nat := 24
  const MAX_CONTEXT_CHARS: nat := 40_000
  const MIN_KEPT: nat := 256

  datatype Role = System | User | Assistant | Tool

  /** `Structured` is null or an array of parts, never touched; only its serialized size matters. */
  datatype Content = Plain(units: Units) | Structured(jsonLength: nat)

  /** `frame` is the serialized size of everything but the content value. */
  datatype Message = Message(role: Role, content: Content, calls: seq<string>, toolCallId: string, frame: nat)

  // ---------------------------------------------------------------- JSON.stringify, measured

  predicate IsHigh(u: CodeUnit) {
    0xD800 <= u < 0xDC00
  }

  predicate IsLow(u: CodeUnit) {
    0xDC00 <= u < 0xE000
  }

  function UnitWidth(u: CodeUnit): (w: nat)
    ensures 1 <= w <= 6
  {
    if u in {8, 9, 10, 12, 13, 34, 92} then 2
    else if u < 32 || IsHigh(u) || IsLow(u) then 6
    else 1
  }

  /** Characters between the quotes: escapes, and a surrogate costs six unless it is half of a pair. */
  function Width(s: Units): nat {
    if s == [] then 0
    else if |s| > 1 && IsHigh(s[0]) && IsLow(s[1]) then 2 + Width(s[2..])
    else UnitWidth(s[0]) + Width(s[1..])
  }

  function ContentSize(c: Content): nat {
    match c
    case Plain(units) => 2 + Width(units)
    case Structured(n) => n
  }

  function MessageSize(m: Message): nat {
    m.frame + ContentSize(m.content)
  }

  function TotalSize(ms: seq<Message>): nat {
    if ms == [] then 0 else MessageSize(ms[0]) + TotalSize(ms[1..])
  }

  /** `JSON.stringify(messages).length` */
  function ContextChars(ms: seq<Message>): nat {
    2 + TotalSize(ms) + (if ms == [] then 0 else |ms| - 1)
  }

  /** Brackets, commas, frames, quotes and escapes, spelled out. */
  lemma SizeExample(f: nat, g: nat)
    ensures ContextChars([]) == 2
    ensures var m := Message(User, Structured(f), [], "", g); ContextChars([m]) == 2 + g + f
    ensures var m, n := Message(User, Structured(f), [], "", 0), Message(User, Structured(g), [], "", 0);
            ContextChars([m, n]) == 3 + f + g
    ensures ContentSize(Plain([104, 105])) == 4          // hi
    ensures ContentSize(Plain([34, 10, 92])) == 8        // a quote, a line feed and a backslash are escaped
    ensures ContentSize(Plain([1, 127])) == 9            // a control character takes \\u0001, DEL takes one
    ensures ContentSize(Plain([0xD83D, 0xDE00])) == 4    // a surrogate pair stays as it is
    ensures ContentSize(Plain([0xDE00, 0xD83D])) == 14   // lone surrogates are escaped
  {
    var l := Message(User, Structured(f), [], "", g);
    var m, n := Message(User, Structured(f), [], "", 0), Message(User, Structured(g), [], "", 0);
    assert [l][1..] == [] && [n][1..] == [] && [m, n][1..] == [n];
    assert TotalSize([l]) == g + f && TotalSize([n]) == g && TotalSize([m, n]) == f + g;
    assert [104, 105][1..] == [105] && [34, 10, 92][1..] == [10, 92] && [10, 92][1..] == [92] && [1, 127][1..] == [127];
    assert [0xD83D, 0xDE00][2..] == [] && [0xDE00, 0xD83D][1..] == [0xD83D];
  }

  /** Two characters for what has a short escape, six for other control characters and lone surrogates, else one. */
  lemma UnitWidths()
    ensures forall u :: u in [8, 9, 10, 12, 13, 34, 92] ==> UnitWidth(u) == 2
    ensures forall u :: u in [0, 7, 11, 14, 31, 0xD800, 0xDBFF, 0xDC00, 0xDFFF] ==> UnitWidth(u) == 6
    ensures forall u :: u in [32, 33, 91, 93, 126, 127, 0xD7FF, 0xE000, 0xFFFF] ==> UnitWidth(u) == 1
  {
  }

  /** Two units are a pair if one is high and the next is low; the bounds of both ranges. */
  lemma PairWidths(u: CodeUnit, v: CodeUnit)
    ensures Width([u, v]) == if 0xD800 <= u <= 0xDBFF && 0xDC00 <= v <= 0xDFFF then 2 else UnitWidth(u) + UnitWidth(v)
  {
    var both: Units, last: Units := [u, v], [v];
    assert both[1..] == last && both[2..] == [] && last[1..] == [];
    assert Width(last) == UnitWidth(v);
  }

  // ---------------------------------------------------------------- trimming

  predicate OverLimits(ms: seq<Message>) {
    (|ms| > MAX_HISTORY + 2 || ContextChars(ms) > MAX_CONTEXT_CHARS) && |ms| > 3
  }

  /** First assistant message at or after `from`, or the end. */
  function TurnEnd(ms: seq<Message>, from: nat): (t: nat)
    requires from <= |ms|
    ensures from <= t <= |ms|
    ensures t < |ms| ==> ms[t].role == Assistant
    ensures forall i :: from <= i < t ==> ms[i].role != Assistant
    decreases |ms| - from
  {
    if from == |ms| || ms[from].role == Assistant then from else TurnEnd(ms, from + 1)
  }

  /** The initial request and everything from position `c` on. */
  function CutAt(ms: seq<Message>, c: nat): seq<Message>
    requires 2 <= c <= |ms|
  {
    ms[..2] + ms[c..]
  }

  /** The history with its oldest turns behind the initial request removed, as few as possible. */
  function Trimmed(ms: seq<Message>): seq<Message>
    decreases |ms|
  {
    if OverLimits(ms) && TurnEnd(ms, 3) < |ms| then Trimmed(CutAt(ms, TurnEnd(ms, 3))) else ms
  }

  /** Every tool result directly follows, behind other tool results only, the assistant message that asked for it. */
  ghost predicate Answers(ms: seq<Message>, j: int, i: int)
    requires 0 <= i < |ms|
  {
    && 0 <= j < i && ms[j].role == Assistant && ms[i].toolCallId in ms[j].calls
    && forall x :: j < x <= i ==> ms[x].role == Tool
  }

  ghost predicate ToolResultsPaired(ms: seq<Message>) {
    forall i :: 0 <= i < |ms| && ms[i].role == Tool ==> exists j :: Answers(ms, j, i)
  }

  /** A suffix that starts a turn: nothing was cut, or it begins with an assistant message. */
  predicate IsTurnStart(ms: seq<Message>, c: nat) {
    c == 2 || (3 <= c < |ms| && ms[c].role == Assistant)
  }

  lemma CutsCompose(ms: seq<Message>, t: nat, c: nat)
    requires 2 <= t <= |ms| && 2 <= c <= |ms| - t + 2
    ensures CutAt(CutAt(ms, t), c) == CutAt(ms, t + c - 2)
    ensures c < |ms| - t + 2 ==> CutAt(ms, t)[c] == ms[t + c - 2]
  {
  }

  /** No more is cut than needed: at every earlier turn start the history was still over its limits. */
  ghost predicate CutWasNeeded(ms: seq<Message>, c: nat)
    requires 2 <= c <= |ms|
  {
    forall b: nat :: 2 <= b < c && IsTurnStart(ms, b) ==> OverLimits(CutAt(ms, b))
  }

  lemma EarlierCuts(ms: seq<Message>, t: nat, c: nat)
    requires |ms| >= 3 && t == TurnEnd(ms, 3) < |ms| && 2 <= c <= |ms| - t + 2
    requires OverLimits(ms) && CutWasNeeded(CutAt(ms, t), c)
    ensures CutWasNeeded(ms, t + c - 2)
  {
    hide OverLimits;
    var next := CutAt(ms, t);
    forall b: nat | 2 <= b < t + c - 2 && IsTurnStart(ms, b) ensures OverLimits(CutAt(ms, b)) {
      if b == 2 {
        assert CutAt(ms, 2) == ms;
      } else {
        CutsCompose(ms, t, b - t + 2);
        assert IsTurnStart(next, b - t + 2);
      }
    }
  }

  /** Trimming removes whole turns, as few as needed, until both limits are met or at most one turn is left. */
  lemma {:induction false} TrimmedKeepsWholeTurns(ms: seq<Message>) returns (c: nat)
    requires |ms| >= 2
    ensures 2 <= c <= |ms| && IsTurnStart(ms, c) && Trimmed(ms) == CutAt(ms, c) && CutWasNeeded(ms, c)
    ensures var r := Trimmed(ms); !OverLimits(r) || forall i :: 3 <= i < |r| ==> r[i].role != Assistant
    decreases |ms|
  {
    hide ContextChars, CutWasNeeded, CutAt;
    NothingCut(ms);
    if OverLimits(ms) && TurnEnd(ms, 3) < |ms| {
      var t := TurnEnd(ms, 3);
      CutLength(ms, t);
      var c' := TrimmedKeepsWholeTurns(CutAt(ms, t));
      CutsCompose(ms, t, c');
      EarlierCuts(ms, t, c');
      c := t + c' - 2;
    } else {
      c := 2;
    }
  }

  /** More than 26 messages, or more than 40,000 characters of JSON, with more than the request and one message in it. */
  predicate IsTooMuch(ms: seq<Message>) {
    |ms| > 3 && (|ms| > 26 || ContextChars(ms) > 40_000)
  }

  /**
   * `after` is the first two messages of `before` and everything from position `c` on, where a turn starts if anything
   * was cut. It is not too much any more or has a single turn left, and a cut at any earlier turn start was too much.
   */
  ghost predicate IsTrimmedAt(after: seq<Message>, before: seq<Message>, c: nat) {
    && 2 <= c <= |before| && after == before[..2] + before[c..]
    && (c > 2 ==> c < |before| && before[c].role == Assistant)
    && (!IsTooMuch(after) || forall i :: 3 <= i < |after| ==> after[i].role != Assistant)
    && forall b: nat :: 2 <= b < c && (b == 2 || before[b].role == Assistant) ==> IsTooMuch(before[..2] + before[b..])
  }

  lemma TrimmedInLimits(ms: seq<Message>) returns (c: nat)
    requires |ms| >= 2
    ensures IsTrimmedAt(Trimmed(ms), ms, c)
  {
    hide ContextChars, Trimmed;
    c := TrimmedKeepsWholeTurns(ms);
    forall b: nat | 2 <= b < c && (b == 2 || ms[b].role == Assistant)
      ensures IsTooMuch(ms[..2] + ms[b..])
    {
      assert IsTurnStart(ms, b) && ms[..2] + ms[b..] == CutAt(ms, b);
    }
  }

  lemma NothingCut(ms: seq<Message>)
    requires |ms| >= 2
    ensures CutAt(ms, 2) == ms && CutWasNeeded(ms, 2)
  {
  }

  lemma CutLength(ms: seq<Message>, c: nat)
    requires 2 <= c <= |ms|
    ensures |CutAt(ms, c)| == |ms| - c + 2
  {
  }

  /** Where position `i` of a cut history was. */
  function Origin(c: nat, i: nat): nat {
    if i < 2 || c < 2 then i else i - 2 + c
  }

  lemma CutPosition(ms: seq<Message>, c: nat, i: nat)
    requires 2 <= c <= |ms| && i < |ms| - c + 2
    ensures Origin(c, i) < |ms| && CutAt(ms, c)[i] == ms[Origin(c, i)]
  {
  }

  /** An answered call behind the cut, or in front of it, stays answered. */
  lemma AnswerSurvives(ms: seq<Message>, c: nat, j: nat, i: nat)
    requires 2 <= c <= |ms| && i < |ms| - c + 2 && j < i
    requires Answers(ms, Origin(c, j), Origin(c, i))
    ensures Answers(CutAt(ms, c), j, i)
  {
    hide CutAt;
    CutLength(ms, c);
    CutPosition(ms, c, i);
    CutPosition(ms, c, j);
    forall x | j < x <= i ensures CutAt(ms, c)[x].role == Tool {
      CutPosition(ms, c, x);
    }
  }

  /** The call that a result answers is on the same side of the cut. */
  lemma CallIsKept(ms: seq<Message>, c: nat, j: nat, i: nat)
    requires 2 <= c <= |ms| && IsTurnStart(ms, c) && i < |ms| - c + 2 && Answers(ms, j, Origin(c, i))
    ensures i >= 2 && c > 2 ==> j >= c
    ensures i < 2 || c == 2 ==> j < i
  {
  }

  /** Cutting where a turn starts cannot part a tool result from the call it answers. */
  lemma CuttingKeepsPairs(ms: seq<Message>, c: nat)
    requires 2 <= c <= |ms| && IsTurnStart(ms, c) && ToolResultsPaired(ms)
    ensures ToolResultsPaired(CutAt(ms, c))
  {
    var r := CutAt(ms, c);
    CutLength(ms, c);
    forall i: nat | i < |r| && r[i].role == Tool ensures exists j :: Answers(r, j, i) {
      hide CutAt, Answers, IsTurnStart;
      CutPosition(ms, c, i);
      var j: int :| Answers(ms, j, Origin(c, i));
      CallFound(ms, c, j, i);
    }
  }

  lemma CallFound(ms: seq<Message>, c: nat, j: int, i: nat)
    requires 2 <= c <= |ms| && IsTurnStart(ms, c) && i < |ms| - c + 2 && Answers(ms, j, Origin(c, i))
    ensures i < |CutAt(ms, c)| && exists k :: Answers(CutAt(ms, c), k, i)
  {
    CutLength(ms, c);
    CallIsKept(ms, c, j, i);
    var k := if i < 2 || c == 2 then j else j - c + 2;
    AnswerSurvives(ms, c, k, i);
  }

  lemma TrimmingKeepsPairs(ms: seq<Message>)
    requires |ms| >= 2 && ToolResultsPaired(ms)
    ensures ToolResultsPaired(Trimmed(ms))
  {
    hide ToolResultsPaired;
    var c := TrimmedKeepsWholeTurns(ms);
    CuttingKeepsPairs(ms, c);
  }

  // ---------------------------------------------------------------- compacting one content

  function Marker(omitted: nat): Units {
    ToUnits("\n... (context truncated " + NatText(omitted) + " chars)")
  }

  function Kept(length: nat, overflow: nat): nat {
    if length <= overflow + 64 + MIN_KEPT then MIN_KEPT else length - overflow - 64
  }

  function Compacted(s: Units, overflow: nat): Units
    requires |s| > MIN_KEPT
  {
    var keep := Kept(|s|, overflow);
    if keep >= |s| then s
    else
      var marker := Marker(|s| - keep);
      if keep > |marker| then s[..keep - |marker|] + marker else s[..keep]
  }

  lemma {:induction false} WidthAtLeastLength(s: Units)
    ensures Width(s) >= |s|
  {
    if s != [] {
      if |s| > 1 && IsHigh(s[0]) && IsLow(s[1]) {
        WidthAtLeastLength(s[2..]);
      } else {
        WidthAtLeastLength(s[1..]);
      }
    }
  }

  /** Cutting saves a character for each unit dropped, but may tear one surrogate pair apart. */
  lemma {:induction false} SliceWidth(s: Units, k: nat)
    requires k <= |s|
    ensures Width(s[..k]) + (|s| - k) <= Width(s) + 5
  {
    if k == 0 {
      WidthAtLeastLength(s);
    } else if |s| > 1 && IsHigh(s[0]) && IsLow(s[1]) {
      if k == 1 {
        assert s[..1] == [s[0]];
        WidthAtLeastLength(s[2..]);
      } else {
        SliceWidth(s[2..], k - 2);
        assert s[..k][2..] == s[2..][..k - 2];
      }
    } else {
      SliceWidth(s[1..], k - 1);
      assert s[..k][1..] == s[1..][..k - 1];
    }
  }

  lemma {:induction false} WidthConcat(a: Units, b: Units)
    requires b != [] ==> !IsLow(b[0])
    ensures Width(a + b) == Width(a) + Width(b)
  {
    if a == [] {
      assert a + b == b;
    } else if |a| > 1 && IsHigh(a[0]) && IsLow(a[1]) {
      assert (a + b)[2..] == a[2..] + b;
      WidthConcat(a[2..], b);
    } else {
      assert (a + b)[1..] == a[1..] + b;
      WidthConcat(a[1..], b);
    }
  }

  lemma {:induction false} PlainWidth(s: Units)
    requires forall i :: 0 <= i < |s| ==> UnitWidth(s[i]) == 1
    ensures Width(s) == |s|
  {
    if s != [] {
      assert forall i :: 0 <= i < |s| - 1 ==> s[1..][i] == s[i + 1];
      PlainWidth(s[1..]);
    }
  }

  /** Only the line feed of the marker needs an escape. */
  lemma MarkerWidth(omitted: nat)
    ensures Marker(omitted) != [] && !IsLow(Marker(omitted)[0])
    ensures Width(Marker(omitted)) == |Marker(omitted)| + 1
  {
    var m := Marker(omitted);
    var text := "\n... (context truncated " + NatText(omitted) + " chars)";
    forall i | 1 <= i < |text| ensures UnitWidth(m[i]) == 1 {
      assert m[i] == text[i] as int;
    }
    PlainWidth(m[1..]);
  }

  /** The 64 spare characters pay for the marker's escape and a torn surrogate pair. */
  lemma CompactedFits(s: Units, overflow: nat)
    requires |s| > MIN_KEPT && overflow > 0
    ensures MIN_KEPT <= |Compacted(s, overflow)| < |s|
    ensures |Compacted(s, overflow)| == MIN_KEPT || Width(Compacted(s, overflow)) + overflow <= Width(s)
  {
    hide Width, Marker;
    var keep := Kept(|s|, overflow);
    var marker := Marker(|s| - keep);
    MarkerWidth(|s| - keep);
    if keep > |marker| {
      WidthConcat(s[..keep - |marker|], marker);
      SliceWidth(s, keep - |marker|);
    } else {
      SliceWidth(s, keep);
    }
  }

  // ---------------------------------------------------------------- compacting the history

  /**
   * `cut` is `full` cut to the larger of 256 and what is left without the overflow and 64 spare units: a prefix and,
   * if it fits, the marker that says how many units are missing.
   */
  predicate IsCutBy(cut: Units, full: Units, overflow: nat) {
    var keep := if |full| - overflow - 64 > 256 then |full| - overflow - 64 else 256;
    keep < |full|
    && var marker := ToUnits("\n... (context truncated " + NatText(|full| - keep) + " chars)");
    cut == if keep > |marker| then full[..keep - |marker|] + marker else full[..keep]
  }

  lemma CompactedIsCut(s: Units, overflow: nat)
    requires |s| > MIN_KEPT && overflow > 0
    ensures IsCutBy(Compacted(s, overflow), s, overflow)
  {
    hide ToUnits;
  }

  /** At its turn message `i` finds the messages before it compacted and those behind it as they were. */
  function AtTurn(after: seq<Message>, before: seq<Message>, i: nat): seq<Message>
    requires i <= |after| == |before|
  {
    after[..i] + before[i..]
  }

  /** A message is left alone if the history fits at its turn or it has no text of more than 256 units; else it is cut. */
  predicate IsCompactedAt(after: seq<Message>, before: seq<Message>, i: nat)
    requires i < |after| == |before|
  {
    var size := ContextChars(AtTurn(after, before, i));
    if size > 40_000 && before[i].content.Plain? && |before[i].content.units| > 256 then
      && after[i].content.Plain?
      && after[i] == before[i].(content := after[i].content)
      && IsCutBy(after[i].content.units, before[i].content.units, size - 40_000)
    else
      after[i] == before[i]
  }

  lemma {:induction false} UpdatedSize(ms: seq<Message>, i: nat, m: Message)
    requires i < |ms|
    ensures ContextChars(ms[i := m]) == ContextChars(ms) - MessageSize(ms[i]) + MessageSize(m)
  {
    if i > 0 {
      UpdatedSize(ms[1..], i - 1, m);
      assert ms[i := m][1..] == ms[1..][i - 1 := m];
    }
  }

  predicate IsShort(m: Message) {
    m.content.Plain? ==> |m.content.units| <= MIN_KEPT
  }

  /** What was compacted before stays so, and message `i` is compacted now. */
  lemma TurnIsTaken(atTurn: seq<Message>, after: seq<Message>, before: seq<Message>, i: nat)
    requires 2 <= i < |atTurn| == |after| == |before|
    requires atTurn[..i] == after[..i] && atTurn[i + 1..] == after[i + 1..] == before[i + 1..] && atTurn[i] == before[i]
    requires ContextChars(atTurn) > MAX_CONTEXT_CHARS
    requires forall j: nat :: 2 <= j < i ==> IsCompactedAt(atTurn, before, j)
    requires if before[i].content.Plain? && |before[i].content.units| > MIN_KEPT then
               && after[i].content.Plain? && after[i] == before[i].(content := after[i].content)
               && IsCutBy(after[i].content.units, before[i].content.units, ContextChars(atTurn) - MAX_CONTEXT_CHARS)
             else after[i] == before[i]
    ensures forall j: nat :: 2 <= j <= i ==> IsCompactedAt(after, before, j)
  {
    hide ContextChars, IsCutBy;
    assert AtTurn(after, before, i) == atTurn;
    forall j: nat | 2 <= j <= i ensures IsCompactedAt(after, before, j) {
      if j < i {
        assert IsCompactedAt(atTurn, before, j) && atTurn[j] == after[j];
        assert AtTurn(after, before, j) == AtTurn(atTurn, before, j);
      }
    }
  }

  /** From the first turn on at which the history fits nothing is touched. */
  lemma FittingIsLeftAlone(after: seq<Message>, before: seq<Message>, i: nat)
    requires i < |after| == |before| && after[i..] == before[i..] && ContextChars(after) <= MAX_CONTEXT_CHARS
    ensures forall j: nat :: i <= j < |after| ==> IsCompactedAt(after, before, j)
  {
    hide ContextChars, IsCutBy;
    forall j: nat | i <= j < |after| ensures IsCompactedAt(after, before, j) {
      assert AtTurn(after, before, j) == after;
    }
  }

  /** Equal but for a plain content that may have become shorter. */
  predicate SameButShorter(a: Message, b: Message) {
    && a.role == b.role && a.calls == b.calls && a.toolCallId == b.toolCallId && a.frame == b.frame
    && (a.content == b.content
        || (a.content.Plain? && b.content.Plain? && MIN_KEPT <= |a.content.units| < |b.content.units|))
  }

  /** `after` is `before` compacted: same messages, the first two untouched, contents only shortened. */
  predicate IsCompactionOf(after: seq<Message>, before: seq<Message>) {
    && |after| == |before|
    && (forall i :: 0 <= i < 2 && i < |after| ==> after[i] == before[i])
    && forall i :: 2 <= i < |after| ==> SameButShorter(after[i], before[i])
  }

  lemma CompactionKeepsPairs(after: seq<Message>, before: seq<Message>)
    requires IsCompactionOf(after, before) && ToolResultsPaired(before)
    ensures ToolResultsPaired(after)
  {
    forall i | 0 <= i < |after| ensures after[i].role == before[i].role && after[i].calls == before[i].calls
                                        && after[i].toolCallId == before[i].toolCallId {
    }
    forall i | 0 <= i < |after| && after[i].role == Tool ensures exists j :: Answers(after, j, i) {
      var j :| Answers(before, j, i);
      assert Answers(after, j, i);
    }
  }

  /** The message array of one `run`, edited in place at the head of every iteration. */
  class Conversation {
    var messages: seq<Message>

    constructor (initial: seq<Message>)
      ensures messages == initial
    {
      messages := initial;
    }

    /** The trimming loop: splice out the oldest turn until the history fits or one turn is left. */
    method Trim()
      modifies this
      ensures messages == Trimmed(old(messages))
      ensures |old(messages)| < 2 ==> messages == old(messages)
      ensures |old(messages)| >= 2 ==>
                exists c: nat :: IsTrimmedAt(messages, old(messages), c)
    {
      if |messages| >= 2 {
        ghost var c := TrimmedInLimits(messages);
      }
      while (|messages| > MAX_HISTORY + 2 || ContextChars(messages) > MAX_CONTEXT_CHARS) && |messages| > 3
        invariant Trimmed(messages) == Trimmed(old(messages))
        decreases |messages|
      {
        var turnEnd := 3;
        while turnEnd < |messages| && messages[turnEnd].role != Assistant
          invariant 3 <= turnEnd <= |messages|
          invariant TurnEnd(messages, 3) == TurnEnd(messages, turnEnd)
        {
          turnEnd := turnEnd + 1;
        }
        if turnEnd == |messages| {
          break;
        }
        messages := CutAt(messages, turnEnd);
      }
    }

    /** The compaction loop: afterwards the history fits, or nothing dynamic is longer than 256 units. */
    method Compact()
      modifies this
      ensures |messages| == |old(messages)| && forall i :: 0 <= i < 2 && i < |messages| ==> messages[i] == old(messages)[i]
      ensures forall i :: 2 <= i < |messages| ==> IsCompactedAt(messages, old(messages), i)
      ensures IsCompactionOf(messages, old(messages))
      ensures ContextChars(messages) <= MAX_CONTEXT_CHARS || forall i :: 2 <= i < |messages| ==> IsShort(messages[i])
      ensures ContextChars(old(messages)) <= MAX_CONTEXT_CHARS ==> messages == old(messages)
    {
      hide Compacted, ContextChars, IsCutBy, IsCompactedAt;
      ghost var before := messages;
      var i := 2;
      while i < |messages| && ContextChars(messages) > MAX_CONTEXT_CHARS
        invariant 2 <= i
        invariant IsCompactionOf(messages, before)
        invariant forall j :: i <= j < |messages| ==> messages[j] == before[j]
        invariant forall j :: 2 <= j < i && j < |messages| ==> IsCompactedAt(messages, before, j)
        invariant ContextChars(messages) <= MAX_CONTEXT_CHARS
                  || forall j :: 2 <= j < i && j < |messages| ==> IsShort(messages[j])
        invariant ContextChars(before) <= MAX_CONTEXT_CHARS ==> messages == before
      {
        ghost var atTurn := messages;
        assert AtTurn(messages, before, i) == messages;
        var m := messages[i];
        if m.content.Plain? && |m.content.units| > MIN_KEPT {
          var overflow := ContextChars(messages) - MAX_CONTEXT_CHARS;
          var shorter := m.(content := Plain(Compacted(m.content.units, overflow)));
          CompactedFits(m.content.units, overflow);
          CompactedIsCut(m.content.units, overflow);
          UpdatedSize(messages, i, shorter);
          messages := messages[i := shorter];
        }
        TurnIsTaken(atTurn, messages, before, i);
        i := i + 1;
      }
      if i < |messages| {
        FittingIsLeftAlone(messages, before, i);
      }
    }
  }

  // ---------------------------------------------------------------- whole runs

  /** What `run` does to the history between two requests. */
  datatype Event =
    | Shrink(compacted: seq<Message>)                            // trim, then compact
    | NativeTurn(assistant: Message, results: seq<Message>)      // tool_calls and their results so far
    | TextTurn(assistant: Message, report: Message)              // tools parsed from the text

  ghost predicate Allowed(ms: seq<Message>, e: Event) {
    match e
    case Shrink(compacted) => IsCompactionOf(compacted, Trimmed(ms))
    case NativeTurn(assistant, results) =>
      && assistant.role == Assistant
      && forall i :: 0 <= i < |results| ==> results[i].role == Tool && results[i].toolCallId in assistant.calls
    case TextTurn(assistant, report) => assistant.role == Assistant && report.role == User
  }

  function After(ms: seq<Message>, e: Event): seq<Message> {
    match e
    case Shrink(compacted) => compacted
    case NativeTurn(assistant, results) => ms + [assistant] + results
    case TextTurn(assistant, report) => ms + [assistant, report]
  }

  ghost predicate IsHistoryRun(ms: seq<Message>, events: seq<Event>)
    decreases |events|
  {
    events == [] || (Allowed(ms, events[0]) && IsHistoryRun(After(ms, events[0]), events[1..]))
  }

  function AfterAll(ms: seq<Message>, events: seq<Event>): seq<Message>
    decreases |events|
  {
    if events == [] then ms else AfterAll(After(ms, events[0]), events[1..])
  }

  lemma AppendedTurnKeepsPairs(ms: seq<Message>, assistant: Message, more: seq<Message>)
    requires ToolResultsPaired(ms) && assistant.role == Assistant
    requires forall i :: 0 <= i < |more| ==> more[i].role == Tool ==>
               more[i].toolCallId in assistant.calls && forall x :: 0 <= x <= i ==> more[x].role == Tool
    ensures ToolResultsPaired(ms + [assistant] + more)
  {
    var all := ms + [assistant] + more;
    forall i | 0 <= i < |all| && all[i].role == Tool ensures exists j :: Answers(all, j, i) {
      if i < |ms| {
        var j :| Answers(ms, j, i);
        assert Answers(all, j, i);
      } else {
        assert all[i] == more[i - |ms| - 1];
        forall x | |ms| < x <= i ensures all[x].role == Tool {
          assert all[x] == more[x - |ms| - 1];
        }
        assert Answers(all, |ms|, i);
      }
    }
  }

  /** Over a whole run: the first two messages never change and no tool result ever loses its call. */
  lemma {:induction false} RunKeepsRequestAndPairs(ms: seq<Message>, events: seq<Event>)
    requires |ms| >= 2 && ToolResultsPaired(ms) && IsHistoryRun(ms, events)
    ensures |AfterAll(ms, events)| >= 2 && AfterAll(ms, events)[..2] == ms[..2]
    ensures ToolResultsPaired(AfterAll(ms, events))
    decreases |events|
  {
    hide ToolResultsPaired, Trimmed;
    if events != [] {
      var next := After(ms, events[0]);
      match events[0] {
        case Shrink(compacted) =>
          var c := TrimmedKeepsWholeTurns(ms);
          TrimmingKeepsPairs(ms);
          CompactionKeepsPairs(compacted, Trimmed(ms));
          assert next[..2] == ms[..2];
        case NativeTurn(assistant, results) =>
          AppendedTurnKeepsPairs(ms, assistant, results);
        case TextTurn(assistant, report) =>
          AppendedTurnKeepsPairs(ms, assistant, [report]);
          assert ms + [assistant] + [report] == next;
      }
      assert next[..2] == ms[..2];
      RunKeepsRequestAndPairs(next, events[1..]);
    }
  }
}
