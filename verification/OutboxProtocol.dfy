/**
 The outbox of src/net/NatsTransport.cpp under concurrency and crashes: publishers, the sender thread and the connection
 callbacks interleave at every lock, send and file operation, and the process may stop at any point.
 */
module OutboxProtocol {
  import opened Envelope
  import opened NatsOutbox

  /** Where the sender thread is with the envelope it has taken from the queue. */
  datatype Sender =
    | Waiting
    | Holding(raw: string)
    | Parked(raw: string)
    | Sending(raw: string)
    | Stored(raw: string)
    | Failed(raw: string)

  /** A plate whose publisher has decided to write it to disk and, when it saw the sender running, to enqueue it next. */
  datatype Pending = Pending(m: Message, enqueue: bool)

  /** `toDisk` and `owed` are plates to be written and envelopes to be enqueued by publishers that have read the flags
      and not gone further, `listing` the names that a callback has listed and yet to re-enqueue, `toList` the callbacks
      that have yet to list the outbox. `drawn` and `written` record every file name ever used and every file ever
      completed, with the message meant for it. */
  datatype State = State(
    queue: seq<string>,
    sender: Sender,
    running: bool,
    disconnected: bool,
    connected: bool,
    files: map<string, Message>,
    accepted: seq<Message>,
    toDisk: seq<Pending>,
    owed: seq<string>,
    listing: seq<string>,
    toList: nat,
    drawn: map<string, Message>,
    written: map<string, Message>)

  datatype Action =
    | Publish(m: Message)
    | PublishOnline(m: Message)
    | PublishOffline(m: Message)
    | PublishStopped(m: Message)
    | Persist(i: nat, name: string, completed: bool)
    | EnqueueOwed(i: nat)
    | Take
    | Look
    | Unpark
    | Send(stored: bool, ok: bool)
    | Remove(removed: bool)
    | Requeue
    | Connect
    | Disconnect
    | Reconnect
    | ListOutbox(names: seq<string>)
    | Resend(readable: bool)
    | Stop
    | Crash

  /** A subject that the three envelope forms carry unharmed. */
  predicate Plain(m: Message) {
    ':' !in m.subject && '|' !in m.subject
  }

  function Offline(s: State): bool { s.disconnected || !s.connected }

  ghost predicate Enabled(s: State, a: Action) {
    match a
    case Publish(m) => s.running && Plain(m)
    case PublishOnline(m) => !s.disconnected && Plain(m)
    case PublishOffline(m) => s.disconnected && Plain(m)
    case PublishStopped(m) => !s.running && Plain(m)
    case Persist(i, name, _) => i < |s.toDisk| && name !in s.drawn && '|' !in name
    case EnqueueOwed(i) => i < |s.owed|
    case Take => s.sender.Waiting? && s.queue != []
    case Look => s.sender.Holding?
    case Unpark => s.sender.Parked?
    case Send(stored, ok) => s.sender.Sending? && (ok ==> stored)
    case Remove(_) => s.sender.Stored?
    case Requeue => s.sender.Failed?
    case Connect => !s.connected
    case Disconnect => s.connected
    case Reconnect => s.connected
    case ListOutbox(names) => s.toList > 0 && forall f :: f in names <==> f in s.files
    case Resend(_) => s.listing != []
    case Stop => true
    case Crash => true
  }

  function MessageOf(raw: string): Message {
    Message(ParseEnvelope(raw).subject, ParseEnvelope(raw).payload)
  }

  ghost function After(s: State, a: Action, maxQueue: nat): State
    requires Enabled(s, a)
  {
    match a
    case Publish(m) => s.(owed := s.owed + [CoreForm(m.subject, m.payload)])
    case PublishOnline(m) => s.(owed := s.owed + [JetForm(m.subject, m.payload)])
    case PublishOffline(m) => s.(toDisk := s.toDisk + [Pending(m, true)])
    case PublishStopped(m) => s.(toDisk := s.toDisk + [Pending(m, false)])
    case Persist(i, name, completed) =>
      var Pending(m, enqueue) := s.toDisk[i];
      s.(toDisk := s.toDisk[..i] + s.toDisk[i + 1..],
         drawn := s.drawn[name := m],
         files := if completed then s.files[name := m] else s.files,
         written := if completed then s.written[name := m] else s.written,
         owed := if enqueue then s.owed + [EnvelopeOf(name, m)] else s.owed)
    case EnqueueOwed(i) =>
      s.(queue := Enqueued(s.queue, maxQueue, s.owed[i]), owed := s.owed[..i] + s.owed[i + 1..])
    case Take => s.(queue := s.queue[1..], sender := Holding(s.queue[0]))
    case Look =>
      var raw := s.sender.raw;
      s.(sender := if ParseEnvelope(raw).subject == "" then Waiting else if Offline(s) then Parked(raw) else Sending(raw))
    case Unpark =>
      var raw := s.sender.raw;
      s.(sender := Waiting, queue := if ParseEnvelope(raw).durable then s.queue else s.queue + [raw])
    case Send(stored, ok) =>
      var raw := s.sender.raw;
      s.(accepted := if stored then s.accepted + [MessageOf(raw)] else s.accepted,
         sender := if ok then Stored(raw) else Failed(raw))
    case Remove(removed) =>
      var pm := ParseEnvelope(s.sender.raw);
      s.(sender := Waiting, files := if pm.durable && removed then s.files - {pm.file.value} else s.files)
    case Requeue =>
      var raw := s.sender.raw;
      s.(sender := Waiting, queue := if ParseEnvelope(raw).durable then [raw] + s.queue else s.queue + [raw])
    case Connect => s.(running := true, connected := true, disconnected := false, toList := s.toList + 1)
    case Disconnect => s.(disconnected := true)
    case Reconnect => s.(disconnected := false, toList := s.toList + 1)
    case ListOutbox(names) => s.(toList := s.toList - 1, listing := s.listing + names)
    case Resend(readable) =>
      var f := s.listing[0];
      s.(listing := s.listing[1..],
         queue := if f in s.files && readable then Enqueued(s.queue, maxQueue, EnvelopeOf(f, s.files[f])) else s.queue)
    case Stop => s.(running := false)
    case Crash =>
      s.(queue := [], sender := Waiting, running := false, disconnected := false, connected := false,
         toDisk := [], owed := [], listing := [], toList := 0)
  }

  /** The steps of one turn of the sender with no other step in between. */
  ghost function Turn(s: State, sent: bool, removed: bool, maxQueue: nat): State
    requires s.sender.Waiting? && s.queue != []
  {
    var looked := After(After(s, Take, maxQueue), Look, maxQueue);
    if looked.sender.Waiting? then looked
    else if looked.sender.Parked? then After(looked, Unpark, maxQueue)
    else
      var tried := After(looked, Send(sent, sent), maxQueue);
      After(tried, if sent then Remove(removed) else Requeue, maxQueue)
  }

  /** Left alone, the sender's steps amount to `SendOne`. */
  lemma TurnIsSendOne(s: State, sent: bool, removed: bool, maxQueue: nat)
    requires s.sender.Waiting? && s.queue != []
    ensures var t := Turn(s, sent, removed, maxQueue);
      t.sender.Waiting? && Turned(s.queue, s.files, s.accepted, t.queue, t.files, t.accepted, Offline(s), sent, removed)
  {
    hide ParseEnvelope;
  }

  // ----- The invariant of every run -----

  /** A durable envelope names a file drawn for exactly its message. */
  ghost predicate Honest(raw: string, drawn: map<string, Message>) {
    var pm := ParseEnvelope(raw);
    pm.durable ==> pm.file.value in drawn && drawn[pm.file.value] == MessageOf(raw)
  }

  ghost predicate AllHonest(raws: seq<string>, drawn: map<string, Message>) {
    forall i | 0 <= i < |raws| :: Honest(raws[i], drawn)
  }

  /** Every file ever completed is still there unchanged, or its message has been accepted. */
  ghost predicate Safe(s: State) {
    forall f | f in s.written :: (f in s.files && s.files[f] == s.written[f]) || s.written[f] in s.accepted
  }

  ghost predicate Named(drawn: map<string, Message>) {
    forall f | f in drawn :: '|' !in f && Plain(drawn[f])
  }

  ghost predicate Part(x: map<string, Message>, y: map<string, Message>) {
    forall f | f in x :: f in y && x[f] == y[f]
  }

  ghost predicate Envelopes(s: State) {
    AllHonest(s.queue, s.drawn) && AllHonest(s.owed, s.drawn) &&
    (forall i | 0 <= i < |s.toDisk| :: Plain(s.toDisk[i].m)) &&
    (!s.sender.Waiting? ==> Honest(s.sender.raw, s.drawn)) &&
    (s.sender.Stored? ==> MessageOf(s.sender.raw) in s.accepted)
  }

  /** Queue and message in hand together stay within one of the bound, despite requeues that ignore it. */
  ghost predicate Bounded(s: State, maxQueue: nat) {
    |s.queue| + (if s.sender.Waiting? then 0 else 1) <= maxQueue + 1
  }

  ghost predicate Inv(s: State, maxQueue: nat) {
    Named(s.drawn) && Part(s.written, s.drawn) && Part(s.files, s.written) &&
    Envelopes(s) && Safe(s) && Bounded(s, maxQueue)
  }

  lemma EnvelopeIsHonest(f: string, m: Message, drawn: map<string, Message>)
    requires f in drawn && drawn[f] == m && '|' !in f && Plain(m)
    ensures Honest(EnvelopeOf(f, m), drawn)
  {
    DurableParsesBack(f, m.subject, m.payload);
  }

  lemma OthersAreHonest(m: Message, drawn: map<string, Message>)
    requires Plain(m)
    ensures Honest(CoreForm(m.subject, m.payload), drawn) && Honest(JetForm(m.subject, m.payload), drawn)
  {
    assert |m.subject| > 7 ==> m.subject[7] != '|';
    assert |m.subject| > 1 ==> m.subject[1] != '|';
    CoreParsesBack(m.subject, m.payload);
    JetParsesBack(m.subject, m.payload);
  }

  lemma EnqueuedStaysHonest(
      queue: seq<string>, maxQueue: nat, raw: string, drawn: map<string, Message>)
    requires AllHonest(queue, drawn) && Honest(raw, drawn)
    ensures AllHonest(Enqueued(queue, maxQueue, raw), drawn)
  {
    hide Honest;
  }

  lemma DrawnGrows(
      raws: seq<string>, raw: string, drawn: map<string, Message>, name: string, m: Message)
    requires name !in drawn
    ensures AllHonest(raws, drawn) ==> AllHonest(raws, drawn[name := m])
    ensures Honest(raw, drawn) ==> Honest(raw, drawn[name := m])
  {
    hide ParseEnvelope;
  }

  lemma PublisherKeepsInv(s: State, a: Action, maxQueue: nat)
    requires maxQueue > 0 && Inv(s, maxQueue) && Enabled(s, a)
    requires a.Publish? || a.PublishOnline? || a.PublishOffline? || a.PublishStopped? || a.EnqueueOwed?
    ensures Inv(After(s, a, maxQueue), maxQueue)
  {
    hide Honest, ParseEnvelope, EnvelopeOf, CoreForm, JetForm, Plain;
    match a
    case Publish(m) =>
      OthersAreHonest(m, s.drawn);
    case PublishOnline(m) =>
      OthersAreHonest(m, s.drawn);
    case PublishOffline(_) =>
    case PublishStopped(_) =>
    case EnqueueOwed(i) =>
      EnqueuedStaysHonest(s.queue, maxQueue, s.owed[i], s.drawn);
  }

  lemma PersistKeepsInv(s: State, i: nat, name: string, completed: bool, maxQueue: nat)
    requires maxQueue > 0 && Inv(s, maxQueue) && Enabled(s, Persist(i, name, completed))
    ensures Inv(After(s, Persist(i, name, completed), maxQueue), maxQueue)
  {
    hide Honest, ParseEnvelope, EnvelopeOf, Plain;
    var m := s.toDisk[i].m;
    DrawnGrows(s.queue, if s.sender.Waiting? then "" else s.sender.raw, s.drawn, name, m);
    DrawnGrows(s.owed, "", s.drawn, name, m);
    EnvelopeIsHonest(name, m, s.drawn[name := m]);
  }

  lemma SenderKeepsInv(s: State, a: Action, maxQueue: nat)
    requires maxQueue > 0 && Inv(s, maxQueue) && Enabled(s, a)
    requires a.Take? || a.Look? || a.Unpark? || a.Send? || a.Requeue?
    ensures Inv(After(s, a, maxQueue), maxQueue)
  {
    hide Honest, ParseEnvelope, MessageOf, Plain;
  }

  /** The file behind an accepted envelope held exactly the accepted message. */
  lemma RemoveKeepsInv(s: State, removed: bool, maxQueue: nat)
    requires Inv(s, maxQueue) && Enabled(s, Remove(removed))
    ensures Inv(After(s, Remove(removed), maxQueue), maxQueue)
  {
    hide ParseEnvelope, Plain;
  }

  lemma ConnectionKeepsInv(s: State, a: Action, maxQueue: nat)
    requires maxQueue > 0 && Inv(s, maxQueue) && Enabled(s, a)
    requires a.Connect? || a.Disconnect? || a.Reconnect? || a.ListOutbox? || a.Stop? || a.Crash?
    ensures Inv(After(s, a, maxQueue), maxQueue)
  {
    hide Honest, ParseEnvelope, MessageOf, Plain, EnvelopeOf;
  }

  lemma ResendKeepsInv(s: State, readable: bool, maxQueue: nat)
    requires maxQueue > 0 && Inv(s, maxQueue) && Enabled(s, Resend(readable))
    ensures Inv(After(s, Resend(readable), maxQueue), maxQueue)
  {
    hide Honest, ParseEnvelope, Plain, EnvelopeOf;
    var f := s.listing[0];
    if f in s.files {
      EnvelopeIsHonest(f, s.files[f], s.drawn);
      EnqueuedStaysHonest(s.queue, maxQueue, EnvelopeOf(f, s.files[f]), s.drawn);
    }
  }

  lemma StepKeepsInv(s: State, a: Action, maxQueue: nat)
    requires maxQueue > 0 && Inv(s, maxQueue) && Enabled(s, a)
    ensures Inv(After(s, a, maxQueue), maxQueue)
  {
    hide After, Enabled, Inv;
    match a
    case Publish(_) => PublisherKeepsInv(s, a, maxQueue);
    case PublishOnline(_) => PublisherKeepsInv(s, a, maxQueue);
    case PublishOffline(_) => PublisherKeepsInv(s, a, maxQueue);
    case PublishStopped(_) => PublisherKeepsInv(s, a, maxQueue);
    case Persist(i, name, completed) => PersistKeepsInv(s, i, name, completed, maxQueue);
    case EnqueueOwed(_) => PublisherKeepsInv(s, a, maxQueue);
    case Take => SenderKeepsInv(s, a, maxQueue);
    case Look => SenderKeepsInv(s, a, maxQueue);
    case Unpark => SenderKeepsInv(s, a, maxQueue);
    case Send(_, _) => SenderKeepsInv(s, a, maxQueue);
    case Requeue => SenderKeepsInv(s, a, maxQueue);
    case Remove(removed) => RemoveKeepsInv(s, removed, maxQueue);
    case Resend(readable) => ResendKeepsInv(s, readable, maxQueue);
    case _ => ConnectionKeepsInv(s, a, maxQueue);
  }

  // ----- Every run -----

  /** A fresh process over whatever files an earlier one left. */
  function Start(files: map<string, Message>): State {
    State([], Waiting, false, false, false, files, [], [], [], [], 0, files, files)
  }

  ghost predicate Runs(run: seq<State>, actions: seq<Action>, maxQueue: nat) {
    |run| == |actions| + 1 && Named(run[0].files) && run[0] == Start(run[0].files) &&
    forall i | 0 <= i < |actions| :: Enabled(run[i], actions[i]) && run[i + 1] == After(run[i], actions[i], maxQueue)
  }

  lemma RunsKeepInv(run: seq<State>, actions: seq<Action>, maxQueue: nat, k: nat)
    requires maxQueue > 0 && Runs(run, actions, maxQueue) && k < |run|
    ensures Inv(run[k], maxQueue)
  {
    hide After, Enabled;
    if k == 0 {
    } else {
      RunsKeepInv(run, actions, maxQueue, k - 1);
      assert run[k - 1 + 1] == After(run[k - 1], actions[k - 1], maxQueue);
      StepKeepsInv(run[k - 1], actions[k - 1], maxQueue);
    }
  }

  lemma StepForgetsNothing(s: State, a: Action, maxQueue: nat)
    requires Enabled(s, a)
    ensures Part(s.written, After(s, a, maxQueue).written) || (a.Persist? && a.name in s.written)
    ensures s.accepted <= After(s, a, maxQueue).accepted
  {
    hide ParseEnvelope;
  }

  lemma RunsForgetNothing(run: seq<State>, actions: seq<Action>, maxQueue: nat, i: nat, k: nat)
    requires maxQueue > 0 && Runs(run, actions, maxQueue) && i <= k < |run|
    ensures Part(run[i].written, run[k].written) && run[i].accepted <= run[k].accepted
  {
    hide After, Inv;
    if i == k {
    } else {
      RunsForgetNothing(run, actions, maxQueue, i, k - 1);
      assert run[k - 1 + 1] == After(run[k - 1], actions[k - 1], maxQueue);
      StepForgetsNothing(run[k - 1], actions[k - 1], maxQueue);
      RunsKeepInv(run, actions, maxQueue, k - 1);
      WrittenIsDrawn(run[k - 1], maxQueue);
    }
  }

  lemma WrittenIsDrawn(s: State, maxQueue: nat)
    requires Inv(s, maxQueue)
    ensures Part(s.written, s.drawn) && Part(s.files, s.written)
  {
  }

  /** At least once: a plate on disk at some point of a run is, at every later point, still there with the same subject
      and payload, or the server has accepted it; through overflow, disconnects, failures, crashes and restarts. */
  lemma AtLeastOnce(run: seq<State>, actions: seq<Action>, maxQueue: nat, i: nat, k: nat, f: string)
    requires maxQueue > 0 && Runs(run, actions, maxQueue) && i <= k < |run| && f in run[i].files
    ensures (f in run[k].files && run[k].files[f] == run[i].files[f]) || run[i].files[f] in run[k].accepted
  {
    hide Enabled, After, Runs;
    RunsKeepInv(run, actions, maxQueue, i);
    RunsKeepInv(run, actions, maxQueue, k);
    RunsForgetNothing(run, actions, maxQueue, i, k);
  }

  /** The real bound: the queue and the message in hand never exceed one more than `maxQueue`. */
  lemma QueueIsBounded(run: seq<State>, actions: seq<Action>, maxQueue: nat, k: nat)
    requires maxQueue > 0 && Runs(run, actions, maxQueue) && k < |run|
    ensures |run[k].queue| + (if run[k].sender.Waiting? then 0 else 1) <= maxQueue + 1
  {
    hide Enabled, After, Runs;
    RunsKeepInv(run, actions, maxQueue, k);
  }
}
