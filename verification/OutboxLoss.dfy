/**
 When a plate given to `publishDurable` while offline survives. The sender drops its copy because "durable items are always
 backed by an outbox file" (src/net/NatsTransport.cpp:139-140, 166); the file is there only if writing it succeeded, which
 `persistToDisk` does not report (lines 71-86).
 */
module OutboxLoss {
  import opened Envelope
  import opened NatsOutbox
  import opened OutboxProtocol

  ghost predicate Carried(raws: seq<string>, m: Message) {
    exists i :: 0 <= i < |raws| && MessageOf(raws[i]) == m
  }

  ghost predicate OnDisk(s: State, m: Message) {
    exists f :: f in s.files && s.files[f] == m
  }

  ghost predicate AtPublisher(s: State, m: Message) {
    exists i :: 0 <= i < |s.toDisk| && s.toDisk[i].m == m
  }

  /** The message is accepted, on disk, or somewhere in memory. */
  ghost predicate Alive(s: State, m: Message) {
    m in s.accepted || OnDisk(s, m) || AtPublisher(s, m) || Carried(s.queue, m) || Carried(s.owed, m) ||
    (!s.sender.Waiting? && MessageOf(s.sender.raw) == m)
  }

  ghost predicate Publishes(a: Action, m: Message) {
    match a
    case Publish(n) => n == m
    case PublishOnline(n) => n == m
    case PublishOffline(n) => n == m
    case PublishStopped(n) => n == m
    case _ => false
  }

  lemma EnvelopeIsMessage(f: string, m: Message)
    requires '|' !in f && Plain(m)
    ensures MessageOf(EnvelopeOf(f, m)) == m
  {
    DurableParsesBack(f, m.subject, m.payload);
  }

  lemma OtherFormsAreMessage(m: Message)
    requires Plain(m)
    ensures MessageOf(CoreForm(m.subject, m.payload)) == m && MessageOf(JetForm(m.subject, m.payload)) == m
  {
    assert |m.subject| > 7 ==> m.subject[7] != '|';
    assert |m.subject| > 1 ==> m.subject[1] != '|';
    CoreParsesBack(m.subject, m.payload);
    JetParsesBack(m.subject, m.payload);
  }

  lemma EnqueuedCarries(queue: seq<string>, maxQueue: nat, raw: string, m: Message)
    ensures Carried(Enqueued(queue, maxQueue, raw), m) ==> Carried(queue, m) || MessageOf(raw) == m
  {
    hide MessageOf;
    if |queue| >= maxQueue && queue != [] {
      TakenCarries(queue, m);
      AppendedCarries(queue[1..], raw, m);
    } else {
      AppendedCarries(queue, raw, m);
    }
  }

  lemma TakenCarries(raws: seq<string>, m: Message)
    requires raws != []
    ensures Carried(raws[1..], m) ==> Carried(raws, m)
  {
    hide MessageOf;
    if Carried(raws[1..], m) {
      var i :| 0 <= i < |raws[1..]| && MessageOf(raws[1..][i]) == m;
      assert raws[i + 1] == raws[1..][i];
    }
  }

  lemma AppendedCarries(raws: seq<string>, raw: string, m: Message)
    ensures Carried(raws + [raw], m) ==> Carried(raws, m) || MessageOf(raw) == m
  {
    hide MessageOf;
    if Carried(raws + [raw], m) {
      var i :| 0 <= i < |raws + [raw]| && MessageOf((raws + [raw])[i]) == m;
      assert i < |raws| ==> raws[i] == (raws + [raw])[i];
    }
  }

  lemma WithoutCarries(raws: seq<string>, i: nat, m: Message)
    requires i < |raws|
    ensures Carried(raws[..i] + raws[i + 1..], m) ==> Carried(raws, m)
  {
    hide MessageOf;
    var rest := raws[..i] + raws[i + 1..];
    if Carried(rest, m) {
      var k :| 0 <= k < |rest| && MessageOf(rest[k]) == m;
      assert rest[k] == raws[if k < i then k else k + 1];
    }
  }

  lemma PublisherMakesNothing(s: State, a: Action, maxQueue: nat, m: Message)
    requires Enabled(s, a) && !Alive(s, m) && !Publishes(a, m)
    requires a.Publish? || a.PublishOnline? || a.PublishOffline? || a.PublishStopped?
    ensures !Alive(After(s, a, maxQueue), m)
  {
    hide MessageOf, Plain;
    OtherFormsAreMessage(a.m);
    AppendedCarries(s.owed, CoreForm(a.m.subject, a.m.payload), m);
    AppendedCarries(s.owed, JetForm(a.m.subject, a.m.payload), m);
  }

  lemma PersistMakesNothing(
      s: State, i: nat, name: string, completed: bool, maxQueue: nat, m: Message)
    requires Inv(s, maxQueue) && Enabled(s, Persist(i, name, completed)) && !Alive(s, m)
    ensures !Alive(After(s, Persist(i, name, completed), maxQueue), m)
  {
    hide MessageOf, Plain;
    var n := s.toDisk[i].m;
    EnvelopeIsMessage(name, n);
    AppendedCarries(s.owed, EnvelopeOf(name, n), m);
  }

  lemma EnqueueMakesNothing(s: State, i: nat, maxQueue: nat, m: Message)
    requires Enabled(s, EnqueueOwed(i)) && !Alive(s, m)
    ensures !Alive(After(s, EnqueueOwed(i), maxQueue), m)
  {
    hide MessageOf, Enqueued;
    assert MessageOf(s.owed[i]) != m;
    EnqueuedCarries(s.queue, maxQueue, s.owed[i], m);
    WithoutCarries(s.owed, i, m);
  }

  lemma SenderMakesNothing(s: State, a: Action, maxQueue: nat, m: Message)
    requires Enabled(s, a) && !Alive(s, m)
    requires a.Take? || a.Look? || a.Unpark? || a.Send? || a.Remove? || a.Requeue?
    ensures !Alive(After(s, a, maxQueue), m)
  {
    hide MessageOf, ParseEnvelope;
    if a.Take? {
      assert MessageOf(s.queue[0]) != m;
      TakenCarries(s.queue, m);
    } else {
      AppendedCarries(s.queue, s.sender.raw, m);
      PrependedCarries(s.queue, s.sender.raw, m);
    }
  }

  lemma PrependedCarries(raws: seq<string>, raw: string, m: Message)
    ensures Carried([raw] + raws, m) ==> Carried(raws, m) || MessageOf(raw) == m
  {
    hide MessageOf;
    if Carried([raw] + raws, m) {
      var i :| 0 <= i < |[raw] + raws| && MessageOf(([raw] + raws)[i]) == m;
      assert i > 0 ==> raws[i - 1] == ([raw] + raws)[i];
    }
  }

  lemma ConnectionMakesNothing(s: State, a: Action, maxQueue: nat, m: Message)
    requires Enabled(s, a) && !Alive(s, m)
    requires a.Connect? || a.Disconnect? || a.Reconnect? || a.ListOutbox? || a.Stop? || a.Crash?
    ensures !Alive(After(s, a, maxQueue), m)
  {
    hide MessageOf;
  }

  lemma ResendMakesNothing(s: State, readable: bool, maxQueue: nat, m: Message)
    requires Inv(s, maxQueue) && Enabled(s, Resend(readable)) && !Alive(s, m)
    ensures !Alive(After(s, Resend(readable), maxQueue), m)
  {
    hide MessageOf, Plain, Enqueued, EnvelopeOf;
    var f := s.listing[0];
    if f in s.files {
      EnvelopeIsMessage(f, s.files[f]);
      EnqueuedCarries(s.queue, maxQueue, EnvelopeOf(f, s.files[f]), m);
    }
  }

  lemma StepMakesNothing(s: State, a: Action, maxQueue: nat, m: Message)
    requires Inv(s, maxQueue) && Enabled(s, a) && !Alive(s, m) && !Publishes(a, m)
    ensures !Alive(After(s, a, maxQueue), m)
  {
    hide After, Enabled, Inv, Alive;
    match a
    case Publish(_) => PublisherMakesNothing(s, a, maxQueue, m);
    case PublishOnline(_) => PublisherMakesNothing(s, a, maxQueue, m);
    case PublishOffline(_) => PublisherMakesNothing(s, a, maxQueue, m);
    case PublishStopped(_) => PublisherMakesNothing(s, a, maxQueue, m);
    case Persist(i, name, completed) => PersistMakesNothing(s, i, name, completed, maxQueue, m);
    case EnqueueOwed(i) => EnqueueMakesNothing(s, i, maxQueue, m);
    case Resend(readable) => ResendMakesNothing(s, readable, maxQueue, m);
    case Connect => ConnectionMakesNothing(s, a, maxQueue, m);
    case Disconnect => ConnectionMakesNothing(s, a, maxQueue, m);
    case Reconnect => ConnectionMakesNothing(s, a, maxQueue, m);
    case ListOutbox(_) => ConnectionMakesNothing(s, a, maxQueue, m);
    case Stop => ConnectionMakesNothing(s, a, maxQueue, m);
    case Crash => ConnectionMakesNothing(s, a, maxQueue, m);
    case _ => SenderMakesNothing(s, a, maxQueue, m);
  }

  /** What is lost stays lost: in every run, a message that is nowhere is never accepted later unless it is published
      anew. */
  lemma LostForGood(
      run: seq<State>, actions: seq<Action>, maxQueue: nat, i: nat, k: nat, m: Message)
    requires maxQueue > 0 && Runs(run, actions, maxQueue) && i <= k < |run|
    requires !Alive(run[i], m) && forall j | i <= j < k :: !Publishes(actions[j], m)
    ensures !Alive(run[k], m)
  {
    hide After, Enabled, Alive, Inv;
    if i == k {
    } else {
      LostForGood(run, actions, maxQueue, i, k - 1, m);
      RunsKeepInv(run, actions, maxQueue, k - 1);
      assert run[k - 1 + 1] == After(run[k - 1], actions[k - 1], maxQueue);
      StepMakesNothing(run[k - 1], actions[k - 1], maxQueue, m);
    }
  }

  /** No publisher is at work and the sender waits for work; the connection was made and has broken. */
  ghost predicate IdleOffline(s: State) {
    s.disconnected && s.connected && s.sender.Waiting? && s.queue == [] && s.owed == [] && s.toDisk == []
  }

  /** `publishDurable` of a plate: `name` is the drawn file name, `completed` whether the file was written. */
  ghost function Published(s: State, m: Message, name: string, completed: bool, maxQueue: nat): State
    requires IdleOffline(s) && Plain(m) && name !in s.drawn && '|' !in name
  {
    var asked := After(s, PublishOffline(m), maxQueue);
    var stored := After(asked, Persist(0, name, completed), maxQueue);
    After(stored, EnqueueOwed(0), maxQueue)
  }

  /** The sender's look at the plate, the connection being `back` before it or not. */
  ghost function Looked(s: State, back: bool, maxQueue: nat): State
    requires s.connected && s.sender.Waiting? && s.queue != []
  {
    var looked := After(After(if back then After(s, Reconnect, maxQueue) else s, Take, maxQueue), Look, maxQueue);
    if looked.sender.Parked? then After(looked, Unpark, maxQueue) else looked
  }

  lemma PublishedForm(s: State, m: Message, name: string, completed: bool, maxQueue: nat)
    requires maxQueue > 0 && IdleOffline(s) && Plain(m) && name !in s.drawn && '|' !in name
    ensures var t := Published(s, m, name, completed, maxQueue);
      t.queue == [EnvelopeOf(name, m)] && t.owed == [] && t.toDisk == [] && t.sender.Waiting? &&
      t.connected && t.disconnected && t.accepted == s.accepted &&
      t.files == if completed then s.files[name := m] else s.files
  {
    hide EnvelopeOf, Plain;
    assert [] + [Pending(m, true)] == [Pending(m, true)];
    assert [] + [EnvelopeOf(name, m)] == [EnvelopeOf(name, m)];
  }

  lemma LookedForm(s: State, raw: string, back: bool, maxQueue: nat)
    requires s.connected && s.disconnected && s.sender.Waiting? && s.queue == [raw] && ParseEnvelope(raw).durable
    ensures var t := Looked(s, back, maxQueue);
      t.queue == [] && t.owed == s.owed && t.toDisk == s.toDisk && t.accepted == s.accepted && t.files == s.files &&
      t.sender == if back && ParseEnvelope(raw).subject != "" then Sending(raw) else Waiting
  {
    hide ParseEnvelope;
  }

  /** A plate published offline is still there after the sender has looked at it exactly if its file was written, or the
      connection was back by then and the subject is not empty. */
  lemma OfflinePlateSurvives(
      s: State, m: Message, name: string, completed: bool, back: bool, maxQueue: nat)
    requires maxQueue > 0 && IdleOffline(s) && Plain(m) && name !in s.drawn && '|' !in name && !Alive(s, m)
    ensures var t := Published(s, m, name, completed, maxQueue);
      t.sender.Waiting? && t.connected && t.queue != [] &&
      (Alive(Looked(t, back, maxQueue), m) <==> completed || (back && m.subject != ""))
  {
    hide Published, Looked, Plain, ParseEnvelope, EnvelopeOf;
    var raw := EnvelopeOf(name, m);
    PublishedForm(s, m, name, completed, maxQueue);
    var t := Published(s, m, name, completed, maxQueue);
    EnvelopeIsMessage(name, m);
    EnvelopeIsDurable(name, m);
    LookedForm(t, raw, back, maxQueue);
    if completed {
      assert t.files[name] == m;
    }
  }

  lemma EnvelopeIsDurable(f: string, m: Message)
    requires '|' !in f && Plain(m)
    ensures ParseEnvelope(EnvelopeOf(f, m)).durable
  {
    DurableParsesBack(f, m.subject, m.payload);
  }
}
