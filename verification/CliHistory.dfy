/** The history that a CLI agent's next prompt is built from, and how it is kept small. */
module CliHistory {
  import opened Text

  const MAX_HISTORY_TURNS: nat := 10
  const MAX_LENGTH: nat := 1 + MAX_HISTORY_TURNS * 2
  const MAX_CONTEXT_CHARS: nat := 40_000

  datatype Role = User | Assistant {
    function Length(): nat {
      if User? then 4 else 9
    }
  }

  datatype Message = Message(role: Role, content: Units)

  type History = seq<Message>

  function MessageChars(m: Message): nat {
    m.role.Length() + |m.content| + 8
  }

  function ContextChars(h: History): nat {
    if h == [] then 0 else ContextChars(h[..|h| - 1]) + MessageChars(h[|h| - 1])
  }

  // ---------------------------------------------------------------- dropping the oldest pairs

  predicate TooMuch(h: History) {
    (|h| > MAX_LENGTH || ContextChars(h) > MAX_CONTEXT_CHARS) && |h| > 3
  }

  /** The first message and everything behind the `k` oldest pairs. */
  function WithoutPairs(h: History, k: nat): (r: History)
    requires 1 + 2 * k <= |h|
    ensures |r| == |h| - 2 * k
  {
    h[..1] + h[1 + 2 * k..]
  }

  /** How many pairs have to go. */
  function PairsToDrop(h: History): (k: nat)
    ensures h != [] ==> 1 + 2 * k <= |h|
    ensures k > 0 ==> 2 * k + 2 <= |h|
    decreases |h|
  {
    if TooMuch(h) then 1 + PairsToDrop(WithoutPairs(h, 1)) else 0
  }

  // ---------------------------------------------------------------- truncating the latest message

  function Marker(omitted: nat): Units {
    ToUnits("\n\n... (history truncated " + NatText(omitted) + " chars)\nContinue your work.")
  }

  function Truncated(content: Units, available: nat): Units {
    if |content| <= available then content
    else
      var marker := Marker(|content| - available);
      if available > |marker| then content[..available - |marker|] + marker else marker[..available]
  }

  /** Room that the other messages leave for the latest one. */
  function Available(h: History): nat
    requires h != []
  {
    var others := ContextChars(h) - |h[|h| - 1].content|;
    if others >= MAX_CONTEXT_CHARS then 0 else MAX_CONTEXT_CHARS - others
  }

  function WithLatestTruncated(h: History): (r: History)
    ensures |r| == |h|
  {
    if h == [] || h[|h| - 1].role != User || ContextChars(h) <= MAX_CONTEXT_CHARS then h
    else
      var latest := h[|h| - 1];
      h[..|h| - 1] + [latest.(content := Truncated(latest.content, Available(h)))]
  }

  /** `trimConversationHistory` */
  function Trimmed(h: History): (r: History)
    requires h != []
    ensures r != [] && |r| % 2 == |h| % 2
  {
    WithLatestTruncated(WithoutPairs(h, PairsToDrop(h)))
  }

  // ---------------------------------------------------------------- what trimming guarantees

  /** User and assistant take turns, the user first. */
  predicate Alternates(h: History) {
    forall i :: 0 <= i < |h| ==> h[i].role == if i % 2 == 0 then User else Assistant
  }

  /** Everything but the latest content. */
  function OthersChars(h: History): nat
    requires h != []
  {
    ContextChars(h[..|h| - 1]) + h[|h| - 1].role.Length() + 8
  }

  lemma {:induction false} DroppingStops(h: History)
    requires h != []
    ensures !TooMuch(WithoutPairs(h, PairsToDrop(h)))
    ensures forall k: nat :: k < PairsToDrop(h) ==> TooMuch(WithoutPairs(h, k))
    decreases |h|
  {
    hide ContextChars;
    assert WithoutPairs(h, 0) == h;
    if TooMuch(h) {
      var next := WithoutPairs(h, 1);
      DroppingStops(next);
      forall k: nat | 1 <= k <= PairsToDrop(h) ensures WithoutPairs(h, k) == WithoutPairs(next, k - 1) {
      }
    }
  }

  /** More than 21 messages or 40,000 characters, and more than three messages. */
  predicate IsOverLimits(h: History) {
    |h| > 3 && (|h| > 21 || ContextChars(h) > 40_000)
  }

  /** The `k` oldest pairs behind the first message are gone; with fewer gone there was still too much. */
  ghost predicate ArePairsDropped(after: History, before: History, k: nat) {
    && 1 + 2 * k <= |before| && after == before[..1] + before[1 + 2 * k..]
    && !IsOverLimits(after)
    && forall j: nat :: j < k ==> IsOverLimits(before[..1] + before[1 + 2 * j..])
  }

  lemma PairsAreDropped(h: History)
    requires h != []
    ensures ArePairsDropped(WithoutPairs(h, PairsToDrop(h)), h, PairsToDrop(h))
  {
    hide ContextChars, PairsToDrop;
    DroppingStops(h);
    forall j: nat | j < PairsToDrop(h) ensures IsOverLimits(h[..1] + h[1 + 2 * j..]) {
      assert TooMuch(WithoutPairs(h, j));
    }
  }

  lemma TruncatedFits(content: Units, available: nat)
    ensures |Truncated(content, available)| == if |content| <= available then |content| else available
  {
    hide Marker;
  }

  /**
   * `cut` is what is left of `full` when `available` units are: all of it if it fits, else its beginning and the marker
   * with the number of missing units, or the beginning of the marker where not even that fits.
   */
  predicate IsCutTo(cut: Units, full: Units, available: nat) {
    if |full| <= available then cut == full
    else
      var marker := ToUnits("\n\n... (history truncated " + NatText(|full| - available) + " chars)\nContinue your work.");
      if |marker| < available then
        cut == full[..available - |marker|] + marker
      else
        |cut| == available && cut <= marker
  }

  /** The latest message alone is cut, to what the others leave of 40,000, if it is the user's and there is too much. */
  predicate IsLatestCut(after: History, before: History)
    requires before != []
  {
    var last := |before| - 1;
    && |after| == |before| && after[..last] == before[..last] && after[last].role == before[last].role
    && if before[last].role == User && ContextChars(before) > 40_000 then
         var room := 40_000 - OthersChars(before);
         IsCutTo(after[last].content, before[last].content, if room > 0 then room else 0)
       else
         after == before
  }

  /** Pairs are dropped first; then the latest message is cut. */
  ghost predicate IsTrimmed(after: History, before: History) {
    exists k: nat, mid :: ArePairsDropped(mid, before, k) && mid != [] && IsLatestCut(after, mid)
  }

  lemma LatestIsCut(h: History)
    requires h != []
    ensures IsLatestCut(WithLatestTruncated(h), h)
  {
    hide ToUnits, ContextChars, OthersChars;
    assert h == h[..|h| - 1] + [h[|h| - 1]];
    SizeWithLatest(h, h[|h| - 1]);
  }

  /** Role, content and eight more for each message, spelled out. */
  lemma SizeExample(a: Units, b: Units)
    ensures ContextChars([]) == 0
    ensures ContextChars([Message(User, a)]) == 12 + |a|
    ensures ContextChars([Message(User, a), Message(Assistant, b)]) == 29 + |a| + |b|
  {
    assert [Message(User, a)][..0] == [];
    assert [Message(User, a), Message(Assistant, b)][..1] == [Message(User, a)];
  }

  lemma NotTooMuchIsShort(h: History)
    requires !TooMuch(h)
    ensures |h| <= MAX_LENGTH
  {
  }

  lemma SizeWithLatest(h: History, latest: Message)
    requires h != [] && latest.role == h[|h| - 1].role
    ensures var r := h[..|h| - 1] + [latest];
            && ContextChars(r) == OthersChars(r) + |latest.content|
            && OthersChars(r) == OthersChars(h) == ContextChars(h) - |h[|h| - 1].content|
  {
    var r := h[..|h| - 1] + [latest];
    assert r[..|r| - 1] == h[..|h| - 1];
  }

  /** Cutting the latest message lands exactly on the limit, if the other messages leave room at all. */
  lemma TruncationFits(h: History)
    requires h != []
    ensures var r := WithLatestTruncated(h);
            && r[..|h| - 1] == h[..|h| - 1] && r[|h| - 1].role == h[|h| - 1].role
            && OthersChars(r) == OthersChars(h)
            && (r[|h| - 1].role == User ==> ContextChars(r) <= MAX_CONTEXT_CHARS || OthersChars(r) > MAX_CONTEXT_CHARS)
            && (r != h && OthersChars(r) <= MAX_CONTEXT_CHARS ==> ContextChars(r) == MAX_CONTEXT_CHARS)
  {
    hide Truncated, ContextChars, OthersChars;
    var latest := h[|h| - 1];
    assert h == h[..|h| - 1] + [latest];
    SizeWithLatest(h, latest);
    TruncatedFits(latest.content, Available(h));
    SizeWithLatest(h, latest.(content := Truncated(latest.content, Available(h))));
  }

  lemma DroppingKeepsAlternation(h: History, k: nat)
    requires 1 + 2 * k <= |h| && Alternates(h)
    ensures Alternates(WithoutPairs(h, k))
  {
    var d := WithoutPairs(h, k);
    forall i | 0 <= i < |d| ensures d[i].role == if i % 2 == 0 then User else Assistant {
      assert d[i] == h[if i == 0 then 0 else i + 2 * k];
    }
  }

  lemma SameRolesAlternate(r: History, d: History)
    requires |r| == |d| > 0 && r[..|r| - 1] == d[..|d| - 1] && r[|r| - 1].role == d[|d| - 1].role
    requires Alternates(d)
    ensures Alternates(r)
  {
    forall i | 0 <= i < |r| ensures r[i].role == d[i].role {
      if i < |r| - 1 {
        assert r[i] == r[..|r| - 1][i] && d[i] == d[..|d| - 1][i];
      }
    }
  }

  /** A history ends with the user and is within the limit, or would be but for its other messages. */
  predicate Fits(r: History)
    requires r != []
  {
    ContextChars(r) <= MAX_CONTEXT_CHARS || OthersChars(r) > MAX_CONTEXT_CHARS
  }

  /**
   * The first message and the alternation survive, at most 21 messages remain, no pair is dropped
   * without need, and a history that ends with the user fits 40,000 unless its other messages alone
   * exceed that; when the latest message had to be cut, the history lands exactly on 40,000.
   */
  lemma TrimmedFits(h: History)
    requires h != []
    ensures var k := PairsToDrop(h);
            var d := WithoutPairs(h, k);
            var r := Trimmed(h);
            && |r| == |d| <= 21 && (|h| > 1 ==> |r| >= 2 && r[0] == h[0])
            && r[..|r| - 1] == d[..|d| - 1] && r[|r| - 1].role == d[|d| - 1].role
            && (Alternates(h) ==> Alternates(r))
            && (forall j: nat :: j < k ==> TooMuch(WithoutPairs(h, j)))
            && IsLatestCut(r, d)
            && (r[|r| - 1].role == User ==> Fits(r))
            && (r != d && OthersChars(r) <= MAX_CONTEXT_CHARS ==> ContextChars(r) == MAX_CONTEXT_CHARS)
  {
    hide TooMuch, ContextChars, OthersChars, WithLatestTruncated, Alternates, IsLatestCut;
    DroppingStops(h);
    LatestIsCut(WithoutPairs(h, PairsToDrop(h)));
    var d := WithoutPairs(h, PairsToDrop(h));
    var r := Trimmed(h);
    NotTooMuchIsShort(d);
    TruncationFits(d);
    if |h| > 1 {
      assert r[0] == r[..|r| - 1][0];
    }
    if Alternates(h) {
      DroppingKeepsAlternation(h, PairsToDrop(h));
      SameRolesAlternate(r, d);
    }
  }

  // ---------------------------------------------------------------- the history object

  class ConversationLog {
    var history: History

    /** `run` starts from the user's prompt. */
    constructor (prompt: Units)
      ensures history == [Message(User, prompt)]
    {
      history := [Message(User, prompt)];
    }

    /** Drop the oldest pair while there is too much and more than three messages. */
    method DropPairs()
      requires history != []
      modifies this
      ensures history == WithoutPairs(old(history), PairsToDrop(old(history)))
      ensures exists k: nat :: ArePairsDropped(history, old(history), k)
    {
      hide ContextChars, ArePairsDropped;
      ghost var before := history;
      ghost var dropped := 0;
      assert WithoutPairs(before, 0) == before;
      while (|history| > MAX_LENGTH || ContextChars(history) > MAX_CONTEXT_CHARS) && |history| > 3
        invariant 1 + 2 * dropped <= |before|
        invariant history == WithoutPairs(before, dropped)
        invariant dropped + PairsToDrop(history) == PairsToDrop(before)
        decreases |history|
      {
        assert history[..1] + history[3..] == WithoutPairs(history, 1);
        history := history[..1] + history[3..];
        dropped := dropped + 1;
        assert history == WithoutPairs(before, dropped);
      }
      PairsAreDropped(before);
      assert ArePairsDropped(history, before, PairsToDrop(before));
    }

    /** Overwrite the latest message when it is the user's and there is still too much. */
    method TruncateLatest()
      requires history != []
      modifies this
      ensures history == WithLatestTruncated(old(history))
      ensures IsLatestCut(history, old(history))
    {
      hide ContextChars, Marker, IsLatestCut;
      ghost var before := history;
      LatestIsCut(before);
      var latest := history[|history| - 1];
      if latest.role == User && ContextChars(history) > MAX_CONTEXT_CHARS {
        var charsWithoutLatest := ContextChars(history) - |latest.content|;
        var available := if MAX_CONTEXT_CHARS > charsWithoutLatest then MAX_CONTEXT_CHARS - charsWithoutLatest else 0;
        if |latest.content| > available {
          var marker := Marker(|latest.content| - available);
          var content := if available > |marker| then latest.content[..available - |marker|] + marker
                         else marker[..available];
          history := history[|history| - 1 := latest.(content := content)];
        } else {
          assert history == history[..|history| - 1] + [latest];
        }
      }
      assert history == WithLatestTruncated(before);
    }

    method Trim()
      requires history != []
      modifies this
      ensures history == Trimmed(old(history))
      ensures IsTrimmed(history, old(history))
    {
      hide ArePairsDropped, IsLatestCut;
      ghost var before := history;
      DropPairs();
      ghost var mid := history;
      TruncateLatest();
      assert exists k: nat :: ArePairsDropped(mid, before, k);
    }

    /** One turn of the loop: the response and, unless it was final, the tool results. */
    method Record(response: Units, results: Option<Units>)
      requires history != []
      modifies this
      ensures history == AfterTurn(old(history), Turn(response, results))
      ensures IsTrimmed(history, old(history) + [Message(Assistant, response)]
                                 + if results.Some? then [Message(User, results.value)] else [])
    {
      hide Trimmed, IsTrimmed;
      ghost var before := history;
      history := history + [Message(Assistant, response)];
      match results {
        case None =>
        case Some(text) => history := history + [Message(User, text)];
      }
      assert history == before + [Message(Assistant, response)] + if results.Some? then [Message(User, results.value)] else [];
      Trim();
    }
  }

  // ---------------------------------------------------------------- whole runs

  datatype Turn = Turn(response: Units, results: Option<Units>)

  function AfterTurn(h: History, t: Turn): (r: History)
    requires h != []
    ensures r != []
  {
    var asked := h + [Message(Assistant, t.response)];
    Trimmed(match t.results { case None => asked case Some(text) => asked + [Message(User, text)] })
  }

  function AfterTurns(h: History, turns: seq<Turn>): History
    requires h != []
    decreases |turns|
  {
    if turns == [] then h else AfterTurns(AfterTurn(h, turns[0]), turns[1..])
  }

  /** A history the loop can go on from: it alternates and the user spoke last. */
  predicate ReadyForNext(h: History) {
    |h| % 2 == 1 && Alternates(h)
  }

  lemma FullTurnAlternates(h: History, response: Units, text: Units)
    requires ReadyForNext(h)
    ensures ReadyForNext(h + [Message(Assistant, response)] + [Message(User, text)])
  {
  }

  /** After a tool turn the next prompt starts with the user's request, ends with the tool results and is bounded. */
  lemma TurnStaysBounded(h: History, t: Turn)
    requires ReadyForNext(h) && t.results.Some?
    ensures var next := AfterTurn(h, t);
            && ReadyForNext(next) && next[|next| - 1].role == User && next[0] == h[0]
            && 3 <= |next| <= 21 && Fits(next)
  {
    hide Trimmed, Fits, PairsToDrop, Alternates;
    var full := h + [Message(Assistant, t.response)] + [Message(User, t.results.value)];
    FullTurnAlternates(h, t.response, t.results.value);
    TrimmedFits(full);
    LastIsUser(Trimmed(full));
  }

  lemma LastIsUser(h: History)
    requires ReadyForNext(h)
    ensures h[|h| - 1].role == User
  {
  }

  /** The same over any number of tool turns. */
  lemma {:induction false} RunsStayBounded(h: History, turns: seq<Turn>)
    requires ReadyForNext(h)
    requires forall i :: 0 <= i < |turns| ==> turns[i].results.Some?
    ensures var end := AfterTurns(h, turns);
            ReadyForNext(end) && end[0] == h[0] && (turns != [] ==> 3 <= |end| <= 21 && Fits(end))
    decreases |turns|
  {
    hide AfterTurn, Fits, Alternates;
    if turns != [] {
      TurnStaysBounded(h, turns[0]);
      RunsStayBounded(AfterTurn(h, turns[0]), turns[1..]);
    }
  }
}
