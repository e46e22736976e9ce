/** The mailboxes of the CLI mesh: atomic record updates, and delivery under every interleaving of them. */
module MeshMailbox {
  import opened Text

  datatype Message = Message(id: string, fromSession: string, content: string)

  datatype WorkMode = Solo | Mesh | Waiting | Blocked | Reviewing | Done | Idle

  /** The stored record of a session; files, branch, conflicts and TTL do not affect the mailbox. */
  datatype Session = Session(
    sessionId: string, agentId: string, startedAt: int, status: string, workMode: WorkMode, currentWork: string,
    completedWork: Option<string>, messageQueue: seq<Message>)

  datatype Heartbeat = Heartbeat(
    sessionId: string, agentId: string, status: Option<string>, workMode: Option<WorkMode>, currentWork: string,
    collaborators: seq<string>)

  // ---------------------------------------------------------------- the record updates

  function StatusOf(b: Heartbeat): string {
    match b.status
    case None => "idle"
    case Some(s) => if s == "" then "idle" else s
  }

  function ResolvedMode(b: Heartbeat): WorkMode {
    match b.workMode
    case Some(m) => m
    case None =>
      var st := StatusOf(b);
      if st == "done" then Done
      else if b.collaborators != [] || st == "discussing" then Mesh
      else if st == "reviewing" then Reviewing
      else if st == "idle" && b.currentWork == "" then Idle
      else if st == "coding" || st == "thinking" then Solo
      else Waiting
  }

  /** Had work before, reports idle and none now: the session is taken to be done. */
  predicate DetectsCompletion(prev: Option<Session>, b: Heartbeat) {
    prev.Some? && prev.value.currentWork != "" && b.currentWork == "" && StatusOf(b) == "idle" && ResolvedMode(b) != Done
  }

  function QueueOf(r: Option<Session>): seq<Message> {
    match r
    case None => []
    case Some(s) => s.messageQueue
  }

  /** The commit of `heartbeat`: a new record that inherits start time and queue. */
  function HeartbeatRecord(prev: Option<Session>, b: Heartbeat, now: int): Session {
    var next := Session(
                  b.sessionId, b.agentId, match prev { case None => now case Some(p) => p.startedAt },
                  StatusOf(b), ResolvedMode(b), b.currentWork, None, QueueOf(prev));
    if DetectsCompletion(prev, b) then
      next.(workMode := Done, status := "done", completedWork := Some(prev.value.currentWork))
    else if prev.Some? && ResolvedMode(b) == Done then
      next.(completedWork := Some(if prev.value.currentWork != "" then prev.value.currentWork else b.currentWork))
    else next
  }

  /** The work mode: as asked for, or what status, collaborators and current work suggest. */
  lemma ModeMeaning(b: Heartbeat)
    ensures var status := if b.status.Some? && b.status.value != "" then b.status.value else "idle";
            ResolvedMode(b) ==
            if b.workMode.Some? then b.workMode.value
            else if status == "done" then Done
            else if |b.collaborators| > 0 || status == "discussing" then Mesh
            else if status == "reviewing" then Reviewing
            else if status == "idle" then (if b.currentWork == "" then Idle else Waiting)
            else if status in ["coding", "thinking"] then Solo
            else Waiting
  {
    assert "idle"[0] == 'i' && "coding"[0] == 'c' && "thinking"[0] == 't';
  }

  /** The committed record, field by field: it finishes work that has disappeared or was said to be done. */
  lemma RecordFields(prev: Option<Session>, b: Heartbeat, now: int)
    ensures var r := HeartbeatRecord(prev, b, now);
            var status := if b.status.Some? && b.status.value != "" then b.status.value else "idle";
            var hadWork := prev.Some? && prev.value.currentWork != "";
            var isFinished := hadWork && b.currentWork == "" && status == "idle" && ResolvedMode(b) != Done;
            && r.sessionId == b.sessionId && r.agentId == b.agentId && r.currentWork == b.currentWork
            && r.startedAt == (if prev.Some? then prev.value.startedAt else now)
            && r.messageQueue == (if prev.Some? then prev.value.messageQueue else [])
            && (isFinished ==>
                  r.status == "done" && r.workMode == Done && r.completedWork == Some(prev.value.currentWork))
            && (!isFinished ==> r.status == status && r.workMode == ResolvedMode(b))
            && (!isFinished && (prev.None? || ResolvedMode(b) != Done) ==> r.completedWork == None)
            && (prev.Some? && ResolvedMode(b) == Done ==>
                  r.completedWork == Some(if hadWork then prev.value.currentWork else b.currentWork))
  {
    hide ResolvedMode;
  }

  function Ids(ms: seq<Message>): set<string> {
    set i | 0 <= i < |ms| :: ms[i].id
  }

  /** filter(message => !ids.has(message.id)) */
  function Without(ms: seq<Message>, ids: set<string>): seq<Message> {
    if ms == [] then []
    else if ms[0].id in ids then Without(ms[1..], ids)
    else [ms[0]] + Without(ms[1..], ids)
  }

  /** Only a session that matches in both ids is the sender. */
  predicate IsSender(s: Session, fromSession: string, fromAgent: string) {
    s.sessionId == fromSession && s.agentId == fromAgent
  }

  /** How many of `keys` a broadcast reaches. */
  function Recipients(sessions: map<string, Session>, keys: seq<string>, fromSession: string, fromAgent: string): nat {
    if keys == [] then 0
    else
      var last := keys[|keys| - 1];
      Recipients(sessions, keys[..|keys| - 1], fromSession, fromAgent)
      + (if last in sessions && !IsSender(sessions[last], fromSession, fromAgent) then 1 else 0)
  }

  function Addressed(sessions: map<string, Session>, keys: seq<string>, fromSession: string, fromAgent: string): set<string> {
    set k | k in keys && k in sessions && !(sessions[k].sessionId == fromSession && sessions[k].agentId == fromAgent)
  }

  /** Every known key that is not the sender's counts once. */
  lemma {:induction false} RecipientsAreCounted(
      sessions: map<string, Session>, keys: seq<string>, fromSession: string, fromAgent: string)
    requires forall i, j :: 0 <= i < j < |keys| ==> keys[i] != keys[j]
    ensures Recipients(sessions, keys, fromSession, fromAgent) == |Addressed(sessions, keys, fromSession, fromAgent)|
  {
    if keys != [] {
      var front, last := keys[..|keys| - 1], keys[|keys| - 1];
      RecipientsAreCounted(sessions, front, fromSession, fromAgent);
      assert keys == front + [last] && last !in front;
      var fewer := Addressed(sessions, front, fromSession, fromAgent);
      assert Addressed(sessions, keys, fromSession, fromAgent)
             == if last in sessions && !IsSender(sessions[last], fromSession, fromAgent) then fewer + {last} else fewer;
    }
  }

  // ---------------------------------------------------------------- one mailbox under interleaving

  /** A reader between its snapshot and its return; `drained` once it has removed its batch from the queue. */
  datatype Reader = Reader(batch: seq<Message>, drained: bool)

  /** The mailbox of a session whose key lives, and the history that the no-loss claim is about. */
  datatype Mailbox = Mailbox(
    queue: seq<Message>, readers: map<nat, Reader>, sent: seq<Message>, returned: multiset<Message>, gone: set<string>)

  datatype Step =
    | Send(m: Message)         // direct or broadcast
    | Commit(reader: nat)      // first update of a heartbeat
    | Drain(reader: nat)       // second update of a heartbeat
    | Peek(reader: nat)        // draining peek
    | Return(reader: nat)      // a heartbeat (early or not) or a peek hands its batch to the caller
    | Abandon(reader: nat)     // the guarded update gave up; nothing was written
    | Touch                    // complete, or a non-draining peek: the queue is left alone

  predicate Enabled(s: Mailbox, step: Step) {
    match step
    case Send(m) => m.id !in Ids(s.sent)
    case Commit(r) => r !in s.readers
    case Peek(r) => r !in s.readers
    case Drain(r) => r in s.readers && !s.readers[r].drained
    case Return(r) => r in s.readers
    case Abandon(r) => r in s.readers && !s.readers[r].drained
    case Touch => true
  }

  function Next(s: Mailbox, step: Step): Mailbox
    requires Enabled(s, step)
  {
    match step
    case Send(m) => s.(queue := s.queue + [m], sent := s.sent + [m])
    case Commit(r) => s.(readers := s.readers[r := Reader(s.queue, false)])
    case Drain(r) =>
      var ids := Ids(s.readers[r].batch);
      s.(queue := Without(s.queue, ids), readers := s.readers[r := s.readers[r].(drained := true)], gone := s.gone + ids)
    case Peek(r) => s.(queue := [], readers := s.readers[r := Reader(s.queue, true)], gone := s.gone + Ids(s.queue))
    case Return(r) =>
      s.(readers := s.readers - {r}, returned := s.returned + multiset(s.readers[r].batch))
    case Abandon(r) => s.(readers := s.readers - {r})
    case Touch => s
  }

  /** The stored queue of a session is the queue of the mailbox. */
  predicate Mirrors(sessions: map<string, Session>, key: string, s: Mailbox) {
    key in sessions && sessions[key].messageQueue == s.queue
  }

  // ---------------------------------------------------------------- the stored records

  /** The session records; each method is one `updateJsonWithWatch`, hence atomic. */
  class MeshStore {
    var sessions: map<string, Session>

    function Record(key: string): Option<Session>
      reads this
    {
      if key in sessions then Some(sessions[key]) else None
    }

    constructor ()
      ensures sessions == map[]
    {
      sessions := map[];
    }

    /** A direct message; nothing is stored for an unknown session. */
    method Enqueue(key: string, m: Message) returns (delivered: bool)
      modifies this
      ensures delivered == (key in old(sessions))
      ensures sessions == if delivered
                          then old(sessions)[key := old(sessions)[key].(messageQueue := old(sessions)[key].messageQueue + [m])]
                          else old(sessions)
      ensures forall s: Mailbox :: Mirrors(old(sessions), key, s) && Enabled(s, Send(m)) ==>
                Mirrors(sessions, key, Next(s, Send(m)))
    {
      delivered := key in sessions;
      if delivered {
        var current := sessions[key];
        sessions := sessions[key := current.(messageQueue := current.messageQueue + [m])];
      }
    }

    /** Broadcast: one update per key seen in the key scan, skipping only the sender itself. */
    method Broadcast(keys: seq<string>, fromSession: string, fromAgent: string, m: Message) returns (delivered: nat)
      requires forall i, j :: 0 <= i < j < |keys| ==> keys[i] != keys[j]
      modifies this
      ensures sessions.Keys == old(sessions).Keys
      ensures forall k :: k in sessions ==>
                sessions[k] == if k in keys && !IsSender(old(sessions)[k], fromSession, fromAgent)
                               then old(sessions)[k].(messageQueue := old(sessions)[k].messageQueue + [m])
                               else old(sessions)[k]
      ensures delivered == |Addressed(old(sessions), keys, fromSession, fromAgent)|
      ensures forall k, s: Mailbox ::
                (Mirrors(old(sessions), k, s) && k in keys && !IsSender(old(sessions)[k], fromSession, fromAgent)
                 && Enabled(s, Send(m))) ==> Mirrors(sessions, k, Next(s, Send(m)))
    {
      delivered := 0;
      for i := 0 to |keys|
        invariant sessions.Keys == old(sessions).Keys
        invariant forall k :: k in sessions ==>
                    sessions[k] == if k in keys[..i] && !IsSender(old(sessions)[k], fromSession, fromAgent)
                                   then old(sessions)[k].(messageQueue := old(sessions)[k].messageQueue + [m])
                                   else old(sessions)[k]
        invariant delivered == Recipients(old(sessions), keys[..i], fromSession, fromAgent)
      {
        var key := keys[i];
        assert keys[..i + 1] == keys[..i] + [key];
        assert keys[..i + 1][..i] == keys[..i];
        if key in sessions && !IsSender(sessions[key], fromSession, fromAgent) {
          var ok := Enqueue(key, m);
          delivered := delivered + 1;
        }
      }
      assert keys[..|keys|] == keys;
      RecipientsAreCounted(old(sessions), keys, fromSession, fromAgent);
    }

    /** First update of a heartbeat; the queue it committed is what the heartbeat will report. */
    method CommitHeartbeat(b: Heartbeat, now: int) returns (messages: seq<Message>, early: bool)
      modifies this
      ensures sessions == old(sessions)[b.sessionId := HeartbeatRecord(old(Record(b.sessionId)), b, now)]
      ensures messages == QueueOf(old(Record(b.sessionId))) == QueueOf(Record(b.sessionId))
      ensures early <==> DetectsCompletion(old(Record(b.sessionId)), b)
      ensures forall s: Mailbox, r :: Mirrors(old(sessions), b.sessionId, s) && Enabled(s, Commit(r)) ==>
                Mirrors(sessions, b.sessionId, Next(s, Commit(r))) && Next(s, Commit(r)).readers[r].batch == messages
    {
      var committed := HeartbeatRecord(Record(b.sessionId), b, now);
      sessions := sessions[b.sessionId := committed];
      messages := committed.messageQueue;
      early := ResolvedMode(b) != Done && committed.workMode == Done;
    }

    /** Second update of a heartbeat: remove what it reports, keep what arrived meanwhile. */
    method DrainHeartbeat(key: string, messages: seq<Message>)
      modifies this
      ensures sessions.Keys == old(sessions).Keys
      ensures key in sessions ==>
                forall m :: m in sessions[key].messageQueue
                            <==> m in old(sessions)[key].messageQueue && forall x :: x in messages ==> x.id != m.id
      ensures sessions == if key in old(sessions)
                          then old(sessions)[key := old(sessions)[key].(
                                 messageQueue := Without(old(sessions)[key].messageQueue, Ids(messages)))]
                          else old(sessions)
      ensures forall s: Mailbox, r ::
                Mirrors(old(sessions), key, s) && Enabled(s, Drain(r)) && s.readers[r].batch == messages ==>
                Mirrors(sessions, key, Next(s, Drain(r)))
    {
      if key in sessions {
        var current := sessions[key];
        WithoutContains(current.messageQueue, Ids(messages));
        IdsContain(messages);
        sessions := sessions[key := current.(messageQueue := Without(current.messageQueue, Ids(messages)))];
      }
    }

    /** `peekPendingMessages` with `drain`: report and clear in one update. */
    method PeekAndDrain(key: string) returns (pending: seq<Message>)
      modifies this
      ensures pending == QueueOf(old(Record(key)))
      ensures sessions == if key in old(sessions) then old(sessions)[key := old(sessions)[key].(messageQueue := [])]
                          else old(sessions)
      ensures forall s: Mailbox, r :: Mirrors(old(sessions), key, s) && Enabled(s, Peek(r)) ==>
                Mirrors(sessions, key, Next(s, Peek(r))) && Next(s, Peek(r)).readers[r].batch == pending
    {
      pending := [];
      if key in sessions {
        pending := sessions[key].messageQueue;
        sessions := sessions[key := sessions[key].(messageQueue := [])];
      }
    }

    /** `complete`: the record is done, its queue is not touched. */
    method Complete(key: string, completedWork: string)
      modifies this
      ensures sessions.Keys == old(sessions).Keys
      ensures forall k :: k in sessions && k != key ==> sessions[k] == old(sessions)[k]
      ensures key in sessions ==>
                && sessions[key].workMode == Done && sessions[key].status == "done" && sessions[key].currentWork == ""
                && sessions[key].completedWork
                   == Some(if completedWork == "" then old(sessions)[key].currentWork else completedWork)
                && sessions[key].sessionId == old(sessions)[key].sessionId
                && sessions[key].agentId == old(sessions)[key].agentId
                && sessions[key].startedAt == old(sessions)[key].startedAt
                && sessions[key].messageQueue == old(sessions)[key].messageQueue
      ensures forall s: Mailbox :: Mirrors(old(sessions), key, s) ==> Mirrors(sessions, key, Next(s, Touch))
    {
      if key in sessions {
        var s := sessions[key];
        sessions := sessions[key := s.(workMode := Done, status := "done", currentWork := "",
                                       completedWork := Some(if completedWork != "" then completedWork else s.currentWork))];
      }
    }
  }

  // ---------------------------------------------------------------- what every interleaving keeps

  /** A reader that has taken its batch out of the queue and still has to return it. */
  ghost predicate Held(s: Mailbox, m: Message) {
    exists r :: r in s.readers && s.readers[r].drained && m in s.readers[r].batch
  }

  ghost predicate Inv(s: Mailbox) {
    && (forall i, j :: 0 <= i < j < |s.sent| ==> s.sent[i].id != s.sent[j].id)
    && s.queue == Without(s.sent, s.gone)
    && (forall m :: m in s.sent && m.id in s.gone ==> m in s.returned || Held(s, m))
    && (forall r, m :: r in s.readers && m in s.readers[r].batch ==> m in s.sent)
    && (forall m :: m in s.returned ==> m in s.sent)
  }

  const EMPTY := Mailbox([], map[], [], multiset{}, {})

  lemma {:induction false} WithoutContains(ms: seq<Message>, ids: set<string>)
    ensures forall m :: m in Without(ms, ids) <==> m in ms && m.id !in ids
  {
    if ms != [] {
      WithoutContains(ms[1..], ids);
    }
  }

  lemma {:induction false} WithoutSnoc(ms: seq<Message>, m: Message, ids: set<string>)
    requires m.id !in ids
    ensures Without(ms + [m], ids) == Without(ms, ids) + [m]
  {
    if ms == [] {
      assert ms + [m] == [m];
    } else {
      assert (ms + [m])[1..] == ms[1..] + [m];
      WithoutSnoc(ms[1..], m, ids);
    }
  }

  lemma {:induction false} WithoutTwice(ms: seq<Message>, a: set<string>, b: set<string>)
    ensures Without(Without(ms, a), b) == Without(ms, a + b)
  {
    if ms != [] {
      WithoutTwice(ms[1..], a, b);
      if ms[0].id !in a {
        assert Without(ms, a)[1..] == Without(ms[1..], a);
      }
    }
  }

  lemma {:induction false} WithoutAll(ms: seq<Message>, ids: set<string>)
    requires forall m :: m in ms ==> m.id in ids
    ensures Without(ms, ids) == []
  {
    if ms != [] {
      assert ms[0] in ms;
      WithoutAll(ms[1..], ids);
    }
  }

  lemma {:induction false} IdsContain(ms: seq<Message>)
    ensures forall m :: m in ms ==> m.id in Ids(ms)
    ensures forall x :: x in Ids(ms) ==> exists m :: m in ms && m.id == x
  {
    forall x | x in Ids(ms) ensures exists m :: m in ms && m.id == x {
      var i :| 0 <= i < |ms| && ms[i].id == x;
      assert ms[i] in ms;
    }
  }

  lemma SendKeeps(s: Mailbox, m: Message)
    requires Inv(s) && Enabled(s, Send(m))
    requires forall x :: x in s.gone ==> x in Ids(s.sent)
    ensures Inv(Next(s, Send(m)))
  {
    var t := Next(s, Send(m));
    IdsContain(s.sent);
    WithoutSnoc(s.sent, m, s.gone);
    forall i, j | 0 <= i < j < |t.sent| ensures t.sent[i].id != t.sent[j].id {
      if j == |s.sent| {
        assert t.sent[i] == s.sent[i] && s.sent[i] in s.sent;
      }
    }
    forall x | x in t.sent && x.id in t.gone ensures x in t.returned || Held(t, x) {
      if x in s.sent && Held(s, x) {
        var r :| r in s.readers && s.readers[r].drained && x in s.readers[r].batch;
        assert r in t.readers;
      }
    }
  }

  /** The message with a given id is unique, so taking an id takes exactly the message that was read. */
  lemma SameIdSameMessage(s: Mailbox, a: Message, b: Message)
    requires Inv(s) && a in s.sent && b in s.sent && a.id == b.id
    ensures a == b
  {
  }

  lemma TakeKeeps(s: Mailbox, r: nat, batch: seq<Message>, queue: seq<Message>)
    requires Inv(s)
    requires r in s.readers ==> !s.readers[r].drained
    requires forall m :: m in batch ==> m in s.sent
    requires queue == Without(s.queue, Ids(batch))
    ensures Inv(s.(queue := queue, readers := s.readers[r := Reader(batch, true)], gone := s.gone + Ids(batch)))
  {
    var t := s.(queue := queue, readers := s.readers[r := Reader(batch, true)], gone := s.gone + Ids(batch));
    WithoutTwice(s.sent, s.gone, Ids(batch));
    IdsContain(batch);
    forall x | x in t.sent && x.id in t.gone ensures x in t.returned || Held(t, x) {
      if x.id in Ids(batch) {
        var m :| m in batch && m.id == x.id;
        SameIdSameMessage(s, x, m);
        assert r in t.readers && t.readers[r].drained && x in t.readers[r].batch;
      } else if Held(s, x) {
        var q :| q in s.readers && s.readers[q].drained && x in s.readers[q].batch;
        assert q in t.readers && t.readers[q] == s.readers[q];
      }
    }
  }

  lemma LeaveKeeps(s: Mailbox, r: nat, returned: multiset<Message>)
    requires Inv(s) && r in s.readers
    requires returned == s.returned + multiset(s.readers[r].batch) || (!s.readers[r].drained && returned == s.returned)
    ensures Inv(s.(readers := s.readers - {r}, returned := returned))
  {
    var t := s.(readers := s.readers - {r}, returned := returned);
    forall x | x in t.sent && x.id in t.gone ensures x in t.returned || Held(t, x) {
      if Held(s, x) && x !in t.returned {
        var q :| q in s.readers && s.readers[q].drained && x in s.readers[q].batch;
        assert q != r;
        assert q in t.readers && t.readers[q] == s.readers[q];
      }
    }
  }

  /** Removed ids are ids of sent messages. */
  ghost predicate GoneWasSent(s: Mailbox) {
    forall x :: x in s.gone ==> x in Ids(s.sent)
  }

  lemma CommitKeeps(s: Mailbox, r: nat)
    requires Inv(s) && Enabled(s, Commit(r))
    ensures Inv(Next(s, Commit(r)))
  {
    var t := Next(s, Commit(r));
    WithoutContains(s.sent, s.gone);
    forall x | x in t.sent && x.id in t.gone ensures x in t.returned || Held(t, x) {
      if Held(s, x) {
        var q :| q in s.readers && s.readers[q].drained && x in s.readers[q].batch;
        assert q in t.readers && t.readers[q] == s.readers[q];
      }
    }
  }

  lemma StepKeepsInv(s: Mailbox, step: Step)
    requires Inv(s) && GoneWasSent(s) && Enabled(s, step)
    ensures Inv(Next(s, step)) && GoneWasSent(Next(s, step))
  {
    hide Inv, Without;
    InvBasics(s);
    match step
    case Send(m) =>
      SendKeeps(s, m);
      IdsContain(s.sent);
      IdsContain(s.sent + [m]);
      assert forall x :: x in s.sent ==> x in s.sent + [m];
    case Commit(r) => CommitKeeps(s, r);
    case Drain(r) =>
      IdsContain(s.readers[r].batch);
      IdsContain(s.sent);
      TakeKeeps(s, r, s.readers[r].batch, Without(s.queue, Ids(s.readers[r].batch)));
    case Peek(r) =>
      IdsContain(s.queue);
      IdsContain(s.sent);
      WithoutAll(s.queue, Ids(s.queue));
      TakeKeeps(s, r, s.queue, []);
    case Return(r) => LeaveKeeps(s, r, s.returned + multiset(s.readers[r].batch));
    case Abandon(r) => LeaveKeeps(s, r, s.returned);
    case Touch =>
  }

  lemma InvBasics(s: Mailbox)
    requires Inv(s)
    ensures forall m :: m in s.queue ==> m in s.sent && m.id !in s.gone
    ensures forall r, m :: r in s.readers && m in s.readers[r].batch ==> m in s.sent
  {
    WithoutContains(s.sent, s.gone);
  }

  predicate IsRun(s: Mailbox, steps: seq<Step>)
    decreases |steps|
  {
    steps == [] || (Enabled(s, steps[0]) && IsRun(Next(s, steps[0]), steps[1..]))
  }

  function Run(s: Mailbox, steps: seq<Step>): Mailbox
    requires IsRun(s, steps)
    decreases |steps|
  {
    if steps == [] then s else Run(Next(s, steps[0]), steps[1..])
  }

  lemma {:induction false} RunKeepsInv(s: Mailbox, steps: seq<Step>)
    requires Inv(s) && GoneWasSent(s) && IsRun(s, steps)
    ensures Inv(Run(s, steps)) && GoneWasSent(Run(s, steps))
    decreases |steps|
  {
    hide Inv, GoneWasSent, Next;
    if steps != [] {
      StepKeepsInv(s, steps[0]);
      RunKeepsInv(Next(s, steps[0]), steps[1..]);
    }
  }

  /** `part` is `whole` with some messages left out: the order is unchanged. */
  ghost predicate InOrderOf(part: seq<Message>, whole: seq<Message>) {
    exists left: set<string> :: part == Without(whole, left)
  }

  /**
   * At least once: under every interleaving each message sent is still queued, or taken by a reader
   * that holds it to return, or was returned; nothing else is ever queued or returned; and the queue
   * is in send order.
   */
  lemma NothingIsLost(steps: seq<Step>)
    requires IsRun(EMPTY, steps)
    ensures var s := Run(EMPTY, steps);
            && (forall m :: m in s.sent ==> m in s.queue || m in s.returned || Held(s, m))
            && (forall m :: m in s.queue || m in s.returned || Held(s, m) ==> m in s.sent)
            && InOrderOf(s.queue, s.sent)
  {
    RunKeepsInv(EMPTY, steps);
    var s := Run(EMPTY, steps);
    WithoutContains(s.sent, s.gone);
    assert s.queue == Without(s.sent, s.gone);
  }

  /** A message that arrives between a heartbeat's commit and its drain survives the drain. */
  lemma LateArrivalSurvives(s: Mailbox, r: nat, m: Message)
    requires Inv(s) && r in s.readers && !s.readers[r].drained
    requires Enabled(s, Send(m))
    ensures m in Next(Next(s, Send(m)), Drain(r)).queue
  {
    IdsContain(s.readers[r].batch);
    IdsContain(s.sent);
    WithoutContains(s.queue + [m], Ids(s.readers[r].batch));
    assert m in s.queue + [m];
  }

  // ---------------------------------------------------------------- who reads a message again

  /** What a step hands to a reader. */
  function Reads(s: Mailbox, step: Step): seq<Message> {
    if step.Commit? || step.Peek? then s.queue else []
  }

  /** What a step takes out of the queue on behalf of a reader. */
  function Drained(s: Mailbox, step: Step): seq<Message>
    requires Enabled(s, step)
  {
    match step
    case Drain(r) => s.readers[r].batch
    case Peek(r) => s.queue
    case _ => []
  }

  /** Some reader got the message in this run. */
  predicate WasRead(s: Mailbox, steps: seq<Step>, m: Message)
    requires IsRun(s, steps)
    decreases |steps|
  {
    steps != [] && (m in Reads(s, steps[0]) || WasRead(Next(s, steps[0]), steps[1..], m))
  }

  /** Some reader of the message has drained its batch in this run. */
  predicate WasDrained(s: Mailbox, steps: seq<Step>, m: Message)
    requires IsRun(s, steps)
    decreases |steps|
  {
    steps != [] && (m in Drained(s, steps[0]) || WasDrained(Next(s, steps[0]), steps[1..], m))
  }

  /** One step adds an id to the removed ones exactly when it drains the message. */
  lemma StepDrains(s: Mailbox, step: Step, m: Message)
    requires Inv(s) && GoneWasSent(s) && Enabled(s, step) && m in Next(s, step).sent
    ensures m.id in Next(s, step).gone <==> m.id in s.gone || m in Drained(s, step)
    ensures m in Reads(s, step) ==> m in s.sent
  {
    InvBasics(s);
    IdsContain(s.sent);
    match step
    case Drain(r) => TakenIds(s, s.readers[r].batch, m);
    case Peek(r) => TakenIds(s, s.queue, m);
    case _ =>
  }

  lemma TakenIds(s: Mailbox, batch: seq<Message>, m: Message)
    requires Inv(s) && m in s.sent && forall x :: x in batch ==> x in s.sent
    ensures m.id in Ids(batch) <==> m in batch
  {
    IdsContain(batch);
    if m.id in Ids(batch) {
      var x :| x in batch && x.id == m.id;
      SameIdSameMessage(s, x, m);
    }
  }

  lemma {:induction false} SentGrows(s: Mailbox, steps: seq<Step>)
    requires IsRun(s, steps)
    ensures forall m :: m in s.sent ==> m in Run(s, steps).sent
    decreases |steps|
  {
    if steps != [] {
      SentGrows(Next(s, steps[0]), steps[1..]);
    }
  }

  /** Over a run from `s` on which the message is already sent. */
  lemma {:induction false} GoneExactlyWhenDrained(s: Mailbox, steps: seq<Step>, m: Message)
    requires Inv(s) && GoneWasSent(s) && IsRun(s, steps) && m in Run(s, steps).sent
    ensures m.id in Run(s, steps).gone && m.id !in s.gone ==> WasDrained(s, steps, m)
    ensures m.id in s.gone || WasDrained(s, steps, m) ==> m.id in Run(s, steps).gone
    ensures WasRead(s, steps, m) ==> m in Run(s, steps).sent
    decreases |steps|
  {
    hide Inv, GoneWasSent, Without;
    if steps != [] {
      var next := Next(s, steps[0]);
      StepKeepsInv(s, steps[0]);
      GoneExactlyWhenDrained(next, steps[1..], m);
      GoneIdsAreSent(next, steps[1..], m);
      if m in next.sent {
        StepDrains(s, steps[0], m);
      } else {
        NotYetSent(s, steps[0], m);
      }
    }
  }

  /** A removed id of a message that is sent at some time belongs to a message sent already. */
  lemma GoneIdsAreSent(s: Mailbox, steps: seq<Step>, m: Message)
    requires Inv(s) && GoneWasSent(s) && IsRun(s, steps) && m in Run(s, steps).sent
    ensures m.id in s.gone ==> m in s.sent
  {
    if m.id in s.gone {
      IdsContain(s.sent);
      var x :| x in s.sent && x.id == m.id;
      RunKeepsInv(s, steps);
      SentGrows(s, steps);
      SameIdSameMessage(Run(s, steps), x, m);
    }
  }

  /** Before it is sent a message cannot be drained, though its id might have been used: ids are unique. */
  lemma NotYetSent(s: Mailbox, step: Step, m: Message)
    requires Inv(s) && GoneWasSent(s) && Enabled(s, step) && m !in Next(s, step).sent
    ensures m !in Drained(s, step) && m !in Reads(s, step)
  {
    InvBasics(s);
  }

  /**
   * After any run, a message that some reader got before is read again by the next heartbeat or draining peek exactly
   * when none of its readers has drained it yet: each of them is still between its two updates, returned early, or
   * gave up.
   */
  lemma ReadAgainExactly(steps: seq<Step>, step: Step, m: Message)
    requires IsRun(EMPTY, steps) && Enabled(Run(EMPTY, steps), step) && (step.Commit? || step.Peek?)
    requires WasRead(EMPTY, steps, m)
    ensures m in Reads(Run(EMPTY, steps), step) <==> !WasDrained(EMPTY, steps, m)
  {
    RunKeepsInv(EMPTY, steps);
    ReadWasSent(EMPTY, steps, m);
    GoneExactlyWhenDrained(EMPTY, steps, m);
    var s := Run(EMPTY, steps);
    WithoutContains(s.sent, s.gone);
  }

  lemma {:induction false} ReadWasSent(s: Mailbox, steps: seq<Step>, m: Message)
    requires Inv(s) && GoneWasSent(s) && IsRun(s, steps) && WasRead(s, steps, m)
    ensures m in Run(s, steps).sent
    decreases |steps|
  {
    hide Inv, GoneWasSent, Without;
    StepKeepsInv(s, steps[0]);
    if m in Reads(s, steps[0]) {
      InvBasics(s);
      SentGrows(s, steps);
    } else {
      ReadWasSent(Next(s, steps[0]), steps[1..], m);
    }
  }

  lemma {:induction false} TwoRuns(s: Mailbox, a: Step, rest: seq<Step>)
    requires Enabled(s, a) && IsRun(Next(s, a), rest)
    ensures IsRun(s, [a] + rest) && Run(s, [a] + rest) == Run(Next(s, a), rest)
  {
    assert ([a] + rest)[0] == a && ([a] + rest)[1..] == rest;
  }

  /** Exactly once does not hold: a heartbeat and a peek in between can both return the same message. */
  lemma DeliveryCanRepeat(m: Message)
    ensures var steps := [Send(m), Commit(0), Peek(1), Return(0), Return(1)];
            IsRun(EMPTY, steps) && Run(EMPTY, steps).returned[m] == 2 && Run(EMPTY, steps).readers == map[]
  {
    var a := Next(EMPTY, Send(m));
    var b := Next(a, Commit(0));
    var c := Next(b, Peek(1));
    var d := Next(c, Return(0));
    var e := Next(d, Return(1));
    assert IsRun(e, []) && Run(e, []) == e;
    TwoRuns(d, Return(1), []);
    TwoRuns(c, Return(0), [Return(1)]);
    TwoRuns(b, Peek(1), [Return(0), Return(1)]);
    TwoRuns(a, Commit(0), [Peek(1), Return(0), Return(1)]);
    TwoRuns(EMPTY, Send(m), [Commit(0), Peek(1), Return(0), Return(1)]);
  }

  /** Nor without any interleaving: a heartbeat that returns early leaves its batch queued for the next one. */
  lemma EarlyReturnRepeats(m: Message)
    ensures var steps := [Send(m), Commit(0), Return(0), Commit(1), Drain(1), Return(1)];
            IsRun(EMPTY, steps) && Run(EMPTY, steps).returned[m] == 2 && Run(EMPTY, steps).queue == []
  {
    var a := Next(EMPTY, Send(m));
    var b := Next(a, Commit(0));
    var c := Next(b, Return(0));
    var d := Next(c, Commit(1));
    IdsContain([m]);
    WithoutAll([m], Ids([m]));
    assert d.queue == [m] && d.readers[1].batch == [m];
    var e := Next(d, Drain(1));
    assert e.queue == [];
    var f := Next(e, Return(1));
    assert IsRun(f, []) && Run(f, []) == f;
    TwoRuns(e, Return(1), []);
    TwoRuns(d, Drain(1), [Return(1)]);
    TwoRuns(c, Commit(1), [Drain(1), Return(1)]);
    TwoRuns(b, Return(0), [Commit(1), Drain(1), Return(1)]);
    TwoRuns(a, Commit(0), [Return(0), Commit(1), Drain(1), Return(1)]);
    TwoRuns(EMPTY, Send(m), [Commit(0), Return(0), Commit(1), Drain(1), Return(1)]);
  }
}
