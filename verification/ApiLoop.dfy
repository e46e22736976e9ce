/** The API agent loop: retries, key rotation, tool fallback and provider fallback, and why it ends. */
module ApiLoop {
  import opened Text

  const MAX_ITERATIONS: nat := 10
  const MAX_RETRYABLE_HTTP_RETRIES: nat := 2

  // ---------------------------------------------------------------- one turn

  /** What the loop can tell about an exception. */
  datatype Failure = Failure(status: Option<int>, connectionLost: bool, toolsComplaint: bool)

  predicate IsRetryableHttpError(e: Failure) {
    e.connectionLost || (e.status.Some? && e.status.value in {408, 429, 500, 502, 503, 504})
  }

  predicate IsLikelyToolsUnsupported(e: Failure) {
    e.status == Some(422) || e.toolsComplaint
  }

  /** What the world does in one turn of the loop. */
  datatype Outcome =
    | Aborted                          // the task was cancelled before the turn
    | CircuitOpen                      // another execution opened the circuit
    | RequestFailed(error: Failure)    // the completion request threw
    | NoMessage                        // a response without a message
    | ToolTurn                         // tools were called and their results appended
    | Answer(text: string)             // a final text
    | FailedLater(error: Failure)      // the response arrived, then an event or a tool call threw

  datatype State = State(iterations: nat, rotations: nat, retries: nat, nativeTools: bool)

  datatype Exit =
    | Finished(output: string)    // the loop was left; the output may be empty
    | Cancelled
    | RateLimited                 // every key is rate limited
    | Failed(error: Failure)      // not handled inside the loop

  datatype Turned = Continue(state: State) | Stop(exit: Exit)

  /** The catch block; `s.iterations` already counts this turn. */
  function Caught(keys: nat, s: State, e: Failure): Turned
    requires s.iterations > 0
  {
    if e.status == Some(429) && keys > 1 then
      if s.rotations + 1 > keys * 2 then Stop(RateLimited)
      else Continue(s.(rotations := s.rotations + 1, iterations := s.iterations - 1))
    else if IsRetryableHttpError(e) && s.retries < MAX_RETRYABLE_HTTP_RETRIES then
      Continue(s.(retries := s.retries + 1, iterations := s.iterations - 1))
    else if s.nativeTools && IsLikelyToolsUnsupported(e) then
      Continue(s.(nativeTools := false, iterations := s.iterations - 1))
    else Stop(Failed(e))
  }

  function Turn(keys: nat, s: State, o: Outcome): Turned {
    var counted := s.(iterations := s.iterations + 1);
    match o
    case Aborted => Stop(Cancelled)
    case CircuitOpen => Stop(Finished(""))
    case RequestFailed(e) => Caught(keys, counted, e)
    case NoMessage => Stop(Finished(""))
    case ToolTurn => Continue(counted.(retries := 0))
    case Answer(text) => Stop(Finished(text))
    case FailedLater(e) => Caught(keys, counted.(retries := 0), e)
  }

  /** What becomes of an error: a key rotation, a retry, a turn without native tools, or the end of the loop. */
  lemma ErrorIsHandled(keys: nat, s: State, e: Failure)
    requires s.iterations > 0
    ensures var r := Caught(keys, s, e);
            var isLimited := e.status == Some(429) && keys > 1;
            var isRetried :=
              s.retries < 2 && (e.connectionLost || exists c :: c in {408, 429, 500, 502, 503, 504} && e.status == Some(c));
            var isWithoutTools := s.nativeTools && (e.status == Some(422) || e.toolsComplaint);
            && (isLimited && s.rotations < 2 * keys ==>
                  r == Continue(State(s.iterations - 1, s.rotations + 1, s.retries, s.nativeTools)))
            && (isLimited && s.rotations >= 2 * keys ==> r == Stop(RateLimited))
            && (!isLimited && isRetried ==>
                  r == Continue(State(s.iterations - 1, s.rotations, s.retries + 1, s.nativeTools)))
            && (!isLimited && !isRetried && isWithoutTools ==>
                  r == Continue(State(s.iterations - 1, s.rotations, s.retries, false)))
            && (!isLimited && !isRetried && !isWithoutTools ==> r == Stop(Failed(e)))
  {
  }

  /** What the outcome of a turn leads to; an error behind a response finds its retries renewed. */
  lemma OutcomeIsHandled(keys: nat, s: State, o: Outcome)
    ensures var r := Turn(keys, s, o);
            var renewed := State(s.iterations + 1, s.rotations, 0, s.nativeTools);
            && (o == Aborted ==> r == Stop(Cancelled))
            && (o == CircuitOpen || o == NoMessage ==> r == Stop(Finished("")))
            && (o.Answer? ==> r == Stop(Finished(o.text)))
            && (o == ToolTurn ==> r == Continue(renewed))
            && (o.RequestFailed? ==> r == Caught(keys, State(s.iterations + 1, s.rotations, s.retries, s.nativeTools), o.error))
            && (o.FailedLater? ==> r == Caught(keys, renewed, o.error))
  {
  }

  type World = nat -> Outcome

  /** The state after `n` turns, if the loop is still in business then. */
  function StateAfter(keys: nat, toolsAllowed: bool, world: World, n: nat): Option<State> {
    if n == 0 then Some(State(0, 0, 0, toolsAllowed))
    else
      match StateAfter(keys, toolsAllowed, world, n - 1)
      case None => None
      case Some(s) =>
        if s.iterations >= MAX_ITERATIONS then None
        else
          match Turn(keys, s, world(n - 1))
          case Stop(_) => None
          case Continue(s') => Some(s')
  }

  // ---------------------------------------------------------------- the measure

  function RotationBudget(keys: nat): nat {
    if keys > 1 then 2 * keys else 0
  }

  /** What is left: iterations (each worth a fresh set of retries), retries, rotations, the tools flag. */
  function Fuel(keys: nat, s: State): int {
    3 * (MAX_ITERATIONS - s.iterations) + (MAX_RETRYABLE_HTTP_RETRIES - s.retries)
    + (RotationBudget(keys) - s.rotations) + (if s.nativeTools then 1 else 0)
  }

  predicate InRange(keys: nat, s: State) {
    && s.iterations <= MAX_ITERATIONS && s.retries <= MAX_RETRYABLE_HTTP_RETRIES && s.rotations <= RotationBudget(keys)
    && (s.iterations == MAX_ITERATIONS ==> s.retries == 0)
  }

  /**
   * Every turn burns fuel in spite of the three `iterations--`, except an error behind a response, which may refill
   * one unit.
   */
  lemma TurnBurnsFuel(keys: nat, s: State, o: Outcome)
    requires InRange(keys, s) && s.iterations < MAX_ITERATIONS
    requires Turn(keys, s, o).Continue?
    ensures InRange(keys, Turn(keys, s, o).state)
    ensures Fuel(keys, Turn(keys, s, o).state) <= Fuel(keys, s) + (if o.FailedLater? then 1 else -1)
  {
  }

  /** How many of the first `n` turns threw behind a response. */
  function LateFailures(world: World, n: nat): nat {
    if n == 0 then 0 else LateFailures(world, n - 1) + (if world(n - 1).FailedLater? then 1 else 0)
  }

  const START_FUEL: nat := 33

  lemma {:induction false} FuelAfter(keys: nat, toolsAllowed: bool, world: World, n: nat)
    requires StateAfter(keys, toolsAllowed, world, n).Some?
    ensures var s := StateAfter(keys, toolsAllowed, world, n).value;
            InRange(keys, s) && n + Fuel(keys, s) <= START_FUEL + RotationBudget(keys) + 2 * LateFailures(world, n)
  {
    if n > 0 {
      FuelAfter(keys, toolsAllowed, world, n - 1);
      TurnBurnsFuel(keys, StateAfter(keys, toolsAllowed, world, n - 1).value, world(n - 1));
    }
  }

  // ---------------------------------------------------------------- how long the loop runs

  /** Turns per provider: 31, two for each key when there are several, two for each error behind a response. */
  function TurnBound(keys: nat, late: nat): nat {
    31 + RotationBudget(keys) + 2 * late
  }

  /** While the loop is in business it has used at most `TurnBound` turns, and one less if another can follow. */
  lemma TurnsAreBounded(keys: nat, toolsAllowed: bool, world: World, n: nat)
    requires StateAfter(keys, toolsAllowed, world, n).Some?
    ensures var s := StateAfter(keys, toolsAllowed, world, n).value;
            n + (if s.iterations < MAX_ITERATIONS then 1 else 0) <= TurnBound(keys, LateFailures(world, n))
  {
    FuelAfter(keys, toolsAllowed, world, n);
  }

  ghost predicate LateFailuresBounded(keys: nat, toolsAllowed: bool, world: World, late: nat) {
    forall n: nat :: StateAfter(keys, toolsAllowed, world, n).Some? ==> LateFailures(world, n) <= late
  }

  ghost predicate EndsWithin(keys: nat, toolsAllowed: bool, world: World, n: nat) {
    StateAfter(keys, toolsAllowed, world, n).None?
  }

  lemma EndingBoundsLateFailures(keys: nat, toolsAllowed: bool, world: World, n: nat)
    requires EndsWithin(keys, toolsAllowed, world, n)
    ensures LateFailuresBounded(keys, toolsAllowed, world, n)
  {
    forall m: nat | StateAfter(keys, toolsAllowed, world, m).Some? ensures LateFailures(world, m) <= n {
      if m >= n {
        NoneStays(keys, toolsAllowed, world, n, m);
      }
      LateAtMostTurns(world, m);
    }
  }

  lemma BoundedLateFailuresEnd(keys: nat, toolsAllowed: bool, world: World, late: nat)
    requires LateFailuresBounded(keys, toolsAllowed, world, late)
    ensures EndsWithin(keys, toolsAllowed, world, TurnBound(keys, late) + 1)
  {
    var n := TurnBound(keys, late) + 1;
    if StateAfter(keys, toolsAllowed, world, n).Some? {
      TurnsAreBounded(keys, toolsAllowed, world, n);
    }
  }

  /** The loop ends exactly when the errors that arrive behind a response while it runs are bounded. */
  lemma EndsExactlyWhenLateFailuresAreBounded(keys: nat, toolsAllowed: bool, world: World)
    ensures (exists n: nat :: EndsWithin(keys, toolsAllowed, world, n))
            <==> (exists late: nat :: LateFailuresBounded(keys, toolsAllowed, world, late))
  {
    hide *;
    if n: nat :| EndsWithin(keys, toolsAllowed, world, n) {
      EndingBoundsLateFailures(keys, toolsAllowed, world, n);
    }
    if late: nat :| LateFailuresBounded(keys, toolsAllowed, world, late) {
      BoundedLateFailuresEnd(keys, toolsAllowed, world, late);
    }
  }

  /** A bound on the answers alone: if only `late` of them are errors behind a response, the loop ends in that time. */
  lemma FewLateAnswersEnd(keys: nat, toolsAllowed: bool, world: World, late: nat)
    requires forall n: nat :: LateFailures(world, n) <= late
    ensures EndsWithin(keys, toolsAllowed, world, TurnBound(keys, late) + 1)
  {
    BoundedLateFailuresEnd(keys, toolsAllowed, world, late);
  }

  /** On answers alone again: if every answer keeps the loop going whatever its state, it ends for no number of turns. */
  lemma {:induction false} TirelessAnswersNeverEnd(keys: nat, toolsAllowed: bool, world: World, n: nat)
    requires forall k: nat ::
      world(k).FailedLater? && IsRetryableHttpError(world(k).error) && (keys <= 1 || world(k).error.status != Some(429))
    ensures !EndsWithin(keys, toolsAllowed, world, n)
    ensures StateAfter(keys, toolsAllowed, world, n).value.iterations == 0
  {
    if n > 0 {
      TirelessAnswersNeverEnd(keys, toolsAllowed, world, n - 1);
    }
  }

  lemma {:induction false} NoneStays(keys: nat, toolsAllowed: bool, world: World, n: nat, m: nat)
    requires n <= m && StateAfter(keys, toolsAllowed, world, n).None?
    ensures StateAfter(keys, toolsAllowed, world, m).None?
  {
    if n < m {
      NoneStays(keys, toolsAllowed, world, n, m - 1);
    }
  }

  lemma {:induction false} LateAtMostTurns(world: World, n: nat)
    ensures LateFailures(world, n) <= n
  {
    if n > 0 {
      LateAtMostTurns(world, n - 1);
    }
  }

  /** Without the hypothesis the bound fails: a connection lost after every response keeps the loop busy for ever. */
  lemma {:induction false} LateFailuresCanLoopForever(keys: nat, toolsAllowed: bool, n: nat)
    ensures var world: World := _ => FailedLater(Failure(None, true, false));
            StateAfter(keys, toolsAllowed, world, n) == Some(State(0, 0, if n == 0 then 0 else 1, toolsAllowed))
  {
    if n > 0 {
      LateFailuresCanLoopForever(keys, toolsAllowed, n - 1);
    }
  }

  /** Every key rate limited twice, two dropped requests before each response, a tools complaint, a fatal error. */
  function WorstWorld(keys: nat): World {
    var r := RotationBudget(keys);
    n => if n < r then RequestFailed(Failure(Some(429), false, false))
         else if n == r + 29 then RequestFailed(Failure(Some(422), false, false))
         else if n == r + 30 then RequestFailed(Failure(Some(400), false, false))
         else if (n - r) % 3 < 2 then RequestFailed(Failure(Some(500), false, false))
         else ToolTurn
  }

  lemma OneMoreTurn(keys: nat, toolsAllowed: bool, world: World, n: nat, s: State, s': State)
    requires StateAfter(keys, toolsAllowed, world, n) == Some(s) && s.iterations < MAX_ITERATIONS
    requires Turn(keys, s, world(n)) == Continue(s')
    ensures StateAfter(keys, toolsAllowed, world, n + 1) == Some(s')
  {
  }

  lemma {:induction false} WorstRotations(keys: nat, n: nat)
    requires n <= RotationBudget(keys)
    ensures StateAfter(keys, true, WorstWorld(keys), n) == Some(State(0, n, 0, true))
  {
    if n > 0 {
      WorstRotations(keys, n - 1);
    }
  }

  lemma {:induction false} WorstIterations(keys: nat, i: nat)
    requires i <= 9
    ensures StateAfter(keys, true, WorstWorld(keys), RotationBudget(keys) + 3 * i)
            == Some(State(i, RotationBudget(keys), 0, true))
  {
    hide StateAfter;
    var r, w := RotationBudget(keys), WorstWorld(keys);
    if i == 0 {
      WorstRotations(keys, r);
    } else {
      WorstIterations(keys, i - 1);
      var n := r + 3 * (i - 1);
      OneMoreTurn(keys, true, w, n, State(i - 1, r, 0, true), State(i - 1, r, 1, true));
      OneMoreTurn(keys, true, w, n + 1, State(i - 1, r, 1, true), State(i - 1, r, 2, true));
      OneMoreTurn(keys, true, w, n + 2, State(i - 1, r, 2, true), State(i, r, 0, true));
    }
  }

  /** The bound is met: without a single late failure the worst world takes all of it. */
  lemma TurnBoundIsMet(keys: nat)
    ensures LeavesAt(keys, true, WorstWorld(keys), TurnBound(keys, 0) - 1, Failed(Failure(Some(400), false, false)))
    ensures forall n :: 0 <= n < TurnBound(keys, 0) ==> IsRequest(WorstWorld(keys)(n))
    ensures forall n: nat :: !WorstWorld(keys)(n).FailedLater?
  {
    hide StateAfter;
    var r, w := RotationBudget(keys), WorstWorld(keys);
    WorstIterations(keys, 9);
    OneMoreTurn(keys, true, w, r + 27, State(9, r, 0, true), State(9, r, 1, true));
    OneMoreTurn(keys, true, w, r + 28, State(9, r, 1, true), State(9, r, 2, true));
    OneMoreTurn(keys, true, w, r + 29, State(9, r, 2, true), State(9, r, 2, false));
  }

  // ---------------------------------------------------------------- the loop itself

  predicate IsRequest(o: Outcome) {
    !o.Aborted? && !o.CircuitOpen?
  }

  function Requests(world: World, n: nat): nat {
    if n == 0 then 0 else Requests(world, n - 1) + (if IsRequest(world(n - 1)) then 1 else 0)
  }

  lemma {:induction false} RequestsAtMostTurns(world: World, n: nat)
    ensures Requests(world, n) <= n
  {
    if n > 0 {
      RequestsAtMostTurns(world, n - 1);
    }
  }

  /** How the loop is left after turn `n`. */
  predicate LeavesAt(keys: nat, toolsAllowed: bool, world: World, n: nat, exit: Exit) {
    match StateAfter(keys, toolsAllowed, world, n)
    case None => false
    case Some(s) => if s.iterations >= MAX_ITERATIONS then exit == Finished("") else Turn(keys, s, world(n)) == Stop(exit)
  }

  ghost predicate FewLateFailures(world: World, late: nat) {
    forall n: nat :: LateFailures(world, n) <= late
  }

  /** The `while` loop of `run`, for a world whose late failures are bounded. */
  method ConverseWithProvider(keys: nat, toolsAllowed: bool, world: World, ghost late: nat)
    returns (exit: Exit, requests: nat, ghost turns: nat)
    requires FewLateFailures(world, late)
    ensures LeavesAt(keys, toolsAllowed, world, turns, exit)
    ensures requests <= TurnBound(keys, late)
  {
    hide LateFailures, IsRetryableHttpError, IsLikelyToolsUnsupported;
    var iterations, rateLimitRotations, retryableHttpRetries := 0, 0, 0;
    var useNativeTools := toolsAllowed;
    var i := 0;
    requests := 0;
    turns := 0;
    while iterations < MAX_ITERATIONS
      invariant 0 <= iterations && 0 <= rateLimitRotations && 0 <= retryableHttpRetries
      invariant i == turns && requests == Requests(world, turns)
      invariant StateAfter(keys, toolsAllowed, world, turns)
                == Some(State(iterations, rateLimitRotations, retryableHttpRetries, useNativeTools))
      decreases TurnBound(keys, late) - turns
    {
      TurnsAreBounded(keys, toolsAllowed, world, turns);
      RequestsAtMostTurns(world, turns);
      var o := world(i);
      i := i + 1;
      iterations := iterations + 1;
      if o.Aborted? {
        return Cancelled, requests, turns;
      }
      if o.CircuitOpen? {
        return Finished(""), requests, turns;
      }
      requests := requests + 1;
      var error;
      match o {
        case NoMessage => return Finished(""), requests, turns;
        case Answer(text) => return Finished(text), requests, turns;
        case ToolTurn =>
          retryableHttpRetries := 0;
          turns := turns + 1;
          continue;
        case RequestFailed(e) => error := e;
        case FailedLater(e) =>
          retryableHttpRetries := 0;
          error := e;
      }
      if error.status == Some(429) && keys > 1 {
        rateLimitRotations := rateLimitRotations + 1;
        if rateLimitRotations > keys * 2 {
          return RateLimited, requests, turns;
        }
        iterations := iterations - 1;
      } else if IsRetryableHttpError(error) && retryableHttpRetries < MAX_RETRYABLE_HTTP_RETRIES {
        retryableHttpRetries := retryableHttpRetries + 1;
        iterations := iterations - 1;
      } else if useNativeTools && IsLikelyToolsUnsupported(error) {
        useNativeTools := false;
        iterations := iterations - 1;
      } else {
        return Failed(error), requests, turns;
      }
      turns := turns + 1;
    }
    TurnsAreBounded(keys, toolsAllowed, world, turns);
    RequestsAtMostTurns(world, turns);
    exit := Finished("");
  }

  // ---------------------------------------------------------------- falling back to other providers

  datatype Provider = Provider(keys: seq<string>, requiresKey: bool, fallback: Option<string>, enabled: bool)

  type Config = map<string, Provider>

  /** `getCredentialPreflightError` */
  predicate CredentialsFail(p: Provider) {
    p.requiresKey && forall i :: 0 <= i < |p.keys| ==> |Trim(p.keys[i])| < 20
  }

  /** The fallback provider, unless the caller asked for a model, it was tried before, is unknown or is disabled. */
  function NextProvider(config: Config, id: string, attempted: set<string>, explicitModel: bool): Option<string>
    requires id in config
  {
    match config[id].fallback
    case None => None
    case Some(f) =>
      if explicitModel || f == "" || f in attempted || f !in config || !config[f].enabled then None else Some(f)
  }

  datatype RunResult = CredentialFailure | Output(text: string) | Threw(exit: Exit)

  /** The end of one provider's turn that hands over to the fallback: an unhandled error or an empty output. */
  predicate HandsOver(exit: Exit) {
    match exit
    case Failed(_) => true
    case Finished(output) => Trim(output) == ""
    case _ => false
  }

  predicate AllConfigured(config: Config, tried: seq<string>) {
    forall i :: 0 <= i < |tried| ==> tried[i] in config
  }

  function Budget(config: Config, tried: seq<string>, late: nat): nat
    requires AllConfigured(config, tried)
  {
    if tried == [] then 0 else TurnBound(|config[tried[0]].keys|, late) + Budget(config, tried[1..], late)
  }

  /** `tried` follows the configured fallbacks without ever coming back to a provider. */
  ghost predicate FallbackChain(config: Config, tried: seq<string>, attempted: set<string>) {
    && tried != []
    && AllConfigured(config, tried)
    && (forall i :: 1 <= i < |tried| ==>
          config[tried[i]].enabled && config[tried[i - 1]].fallback == Some(tried[i]) && tried[i] !in attempted)
    && (forall i, j :: 0 <= i < j < |tried| ==> tried[i] != tried[j])
  }

  /**
   * Nobody is left to ask after the last provider of `tried`: a model was asked for, or its fallback is missing, was
   * tried before, is unknown or is disabled.
   */
  ghost predicate NobodyLeft(config: Config, tried: seq<string>, before: set<string>, explicitModel: bool)
    requires FallbackChain(config, tried, before)
  {
    explicitModel ||
    match config[tried[|tried| - 1]].fallback
    case None => true
    case Some(f) => f == "" || f in before || f in tried || f !in config || !config[f].enabled
  }

  lemma ChainStarts(config: Config, id: string, before: set<string>, explicitModel: bool)
    requires id in config
    ensures FallbackChain(config, [id], before)
    ensures NobodyLeft(config, [id], before, explicitModel) <==> NextProvider(config, id, before + {id}, explicitModel) == None
  {
  }

  /** The loop of provider `p` is left in this way. */
  ghost predicate LeftBy(config: Config, worlds: string -> World, toolsAllowed: bool, p: string, exit: Exit)
    requires p in config
  {
    exists n :: LeavesAt(|config[p].keys|, toolsAllowed, worlds(p), n, exit)
  }

  /** The loop of provider `p` is left with an unhandled error or without any text. */
  ghost predicate HandedOver(config: Config, worlds: string -> World, toolsAllowed: bool, p: string)
    requires p in config
  {
    exists exit :: LeftBy(config, worlds, toolsAllowed, p, exit) && (exit.Failed? || (exit.Finished? && Trim(exit.output) == ""))
  }

  /** The provider needs a key and has none of at least 20 characters. */
  predicate LacksKey(p: Provider) {
    p.requiresKey && !exists key :: key in p.keys && |Trim(key)| >= 20
  }

  lemma LackingKeysFail(p: Provider)
    ensures CredentialsFail(p) <==> LacksKey(p)
  {
    hide Trim;
    if CredentialsFail(p) {
      forall key | key in p.keys ensures |Trim(key)| < 20 {
        var i :| 0 <= i < |p.keys| && p.keys[i] == key;
      }
    }
    if LacksKey(p) {
      forall i | 0 <= i < |p.keys| ensures |Trim(p.keys[i])| < 20 {
        assert p.keys[i] in p.keys;
      }
    }
  }

  /** The result is what the last provider of `tried` came to, and every provider before it handed over. */
  ghost predicate ComesFrom(config: Config, worlds: string -> World, toolsAllowed: bool, tried: seq<string>, result: RunResult)
    requires tried != [] && AllConfigured(config, tried)
  {
    var last := tried[|tried| - 1];
    && (forall i :: 0 <= i < |tried| - 1 ==>
          !LacksKey(config[tried[i]]) && HandedOver(config, worlds, toolsAllowed, tried[i]))
    && (result == CredentialFailure <==> LacksKey(config[last]))
    && (result.Threw? ==> LeftBy(config, worlds, toolsAllowed, last, result.exit))
    && (result.Output? ==>
          exists n :: worlds(last)(n) == Answer(result.text)
                      && LeavesAt(|config[last].keys|, toolsAllowed, worlds(last), n, Finished(result.text)))
  }

  lemma NothingToTrim()
    ensures Trim("") == ""
  {
  }

  /** A text that is not blank was the answer of the turn that left the loop. */
  lemma TextIsAnswer(keys: nat, toolsAllowed: bool, world: World, n: nat, text: string)
    requires LeavesAt(keys, toolsAllowed, world, n, Finished(text)) && text != ""
    ensures world(n) == Answer(text)
  {
    hide StateAfter;
  }

  lemma ResultsGrow(config: Config, worlds: string -> World, toolsAllowed: bool, id: string, rest: seq<string>, result: RunResult)
    requires id in config && rest != [] && AllConfigured(config, rest)
    requires !LacksKey(config[id]) && HandedOver(config, worlds, toolsAllowed, id)
    requires ComesFrom(config, worlds, toolsAllowed, rest, result)
    ensures AllConfigured(config, [id] + rest) && ComesFrom(config, worlds, toolsAllowed, [id] + rest, result)
  {
    hide LacksKey, HandedOver, LeftBy, LeavesAt;
    var tried := [id] + rest;
    assert tried[|tried| - 1] == rest[|rest| - 1];
    forall i | 0 <= i < |tried| - 1
      ensures !LacksKey(config[tried[i]]) && HandedOver(config, worlds, toolsAllowed, tried[i])
    {
      if i > 0 {
        assert tried[i] == rest[i - 1];
      }
    }
  }

  lemma ChainGrows(config: Config, id: string, rest: seq<string>, before: set<string>, explicitModel: bool)
    requires id in config && FallbackChain(config, rest, before + {id})
    requires config[id].fallback == Some(rest[0]) && rest[0] !in before + {id} && config[rest[0]].enabled
    ensures FallbackChain(config, [id] + rest, before)
    ensures NobodyLeft(config, rest, before + {id}, explicitModel) ==> NobodyLeft(config, [id] + rest, before, explicitModel)
  {
    var tried := [id] + rest;
    assert before + (set p | p in tried) == before + {id} + (set p | p in rest);
    forall i | 1 <= i < |tried|
      ensures config[tried[i]].enabled && config[tried[i - 1]].fallback == Some(tried[i]) && tried[i] !in before
      ensures tried[i] != id
    {
      assert tried[i] == rest[i - 1];
    }
  }

  lemma BudgetGrows(config: Config, id: string, rest: seq<string>, late: nat)
    requires id in config && AllConfigured(config, rest)
    ensures AllConfigured(config, [id] + rest)
    ensures Budget(config, [id] + rest, late) == TurnBound(|config[id].keys|, late) + Budget(config, rest, late)
  {
    assert ([id] + rest)[1..] == rest;
  }

  lemma FewerLeft(all: set<string>, before: set<string>, id: string, f: string)
    requires f in all - (before + {id})
    ensures |all - (before + {id}) - {f}| < |all - before - {id}|
  {
    var left := all - before - {id};
    assert left == all - (before + {id});
    assert left == (left - {f}) + {f};
  }

  /**
   * `run` with its recursion into fallback providers. It ends because `attemptedProviders` grows inside
   * the configured set; each provider costs at most its own turn bound.
   */
  method Run(config: Config, worlds: string -> World, id: string, before: set<string>, explicitModel: bool,
             toolsAllowed: bool, ghost late: nat)
    returns (result: RunResult, requests: nat, ghost tried: seq<string>)
    requires id in config
    requires forall p: string :: FewLateFailures(worlds(p), late)
    ensures tried != [] && tried[0] == id && FallbackChain(config, tried, before)
    ensures AllConfigured(config, tried) && requests <= Budget(config, tried, late)
    ensures ComesFrom(config, worlds, toolsAllowed, tried, result)
    ensures result.Output? ==> Trim(result.text) != ""
    ensures explicitModel ==> tried == [id]
    ensures result.Threw? && (result.exit.Failed? || (result.exit.Finished? && Trim(result.exit.output) == "")) ==>
              NobodyLeft(config, tried, before, explicitModel)
    decreases |config.Keys - before - {id}|
  {
    hide Trim, TurnBound, FewLateFailures, LeavesAt, FallbackChain, NobodyLeft, CredentialsFail;
    LackingKeysFail(config[id]);
    NothingToTrim();
    var attempted := before + {id};
    tried := [id];
    BudgetGrows(config, id, [], late);
    ChainStarts(config, id, before, explicitModel);
    if CredentialsFail(config[id]) {
      return CredentialFailure, 0, tried;
    }
    var exit;
    ghost var turns;
    exit, requests, turns := ConverseWithProvider(|config[id].keys|, toolsAllowed, worlds(id), late);
    if exit.Finished? && Trim(exit.output) != "" {
      TextIsAnswer(|config[id].keys|, toolsAllowed, worlds(id), turns, exit.output);
      return Output(exit.output), requests, tried;
    }
    var next := NextProvider(config, id, attempted, explicitModel);
    assert LeftBy(config, worlds, toolsAllowed, id, exit);
    if !HandsOver(exit) || next.None? {
      return Threw(exit), requests, tried;
    }
    assert next.value in config && next.value !in attempted && config[next.value].enabled
           && config[id].fallback == next;
    FewerLeft(config.Keys, before, id, next.value);
    var more;
    ghost var rest;
    result, more, rest := Run(config, worlds, next.value, attempted, explicitModel, toolsAllowed, late);
    assert rest[0] == next.value;
    ChainGrows(config, id, rest, before, explicitModel);
    BudgetGrows(config, id, rest, late);
    ResultsGrow(config, worlds, toolsAllowed, id, rest, result);
    tried := [id] + rest;
    requests := requests + more;
  }
}
