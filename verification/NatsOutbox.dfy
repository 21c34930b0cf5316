/**
 The send queue and the durable outbox of src/net/NatsTransport.cpp.

 The disk is a map from file names to what was stored; the server is the list of messages it accepted. Class `Transport`
 has the critical sections and loops of the source; module OutboxProtocol lets them interleave.
 */
module NatsOutbox {
  import opened Plates
  import opened Envelope
  import opened Sorting

  datatype Message = Message(subject: string, payload: string)

  /** `enqueueRaw`: the oldest envelope goes when the queue is full. */
  function Enqueued(queue: seq<string>, maxQueue: nat, raw: string): seq<string> {
    (if |queue| >= maxQueue && queue != [] then queue[1..] else queue) + [raw]
  }

  function EnvelopeOf(path: string, m: Message): string {
    DurableForm(path, m.subject, m.payload)
  }

  /** The envelopes of the readable files among the names, in the order given. */
  function Envelopes(files: map<string, Message>, names: seq<string>): seq<string> {
    if names == [] then []
    else
      var n := |names| - 1;
      Envelopes(files, names[..n]) + if names[n] in files then [EnvelopeOf(names[n], files[names[n]])] else []
  }

  function EnqueuedAll(queue: seq<string>, maxQueue: nat, raws: seq<string>): seq<string> {
    if raws == [] then queue
    else Enqueued(EnqueuedAll(queue, maxQueue, raws[..|raws| - 1]), maxQueue, raws[|raws| - 1])
  }

  /** The last `n` elements. */
  function Last<T>(s: seq<T>, n: nat): seq<T>
    requires n <= |s|
  {
    s[|s| - n..]
  }

  /** As many envelopes as the queue may hold are all kept, in order, at its end. */
  lemma {:induction false} EnqueuedAllKeeps(queue: seq<string>, maxQueue: nat, raws: seq<string>)
    requires |raws| <= maxQueue
    ensures |EnqueuedAll(queue, maxQueue, raws)| >= |raws|
    ensures Last(EnqueuedAll(queue, maxQueue, raws), |raws|) == raws
    ensures raws != [] && |queue| <= maxQueue ==> |EnqueuedAll(queue, maxQueue, raws)| <= maxQueue
  {
    if raws == [] {
    } else {
      var n := |raws| - 1;
      EnqueuedAllKeeps(queue, maxQueue, raws[..n]);
      var q := EnqueuedAll(queue, maxQueue, raws[..n]);
      var r := EnqueuedAll(queue, maxQueue, raws);
      assert Last(r, n + 1) == Last(q, n) + [raws[n]];
      assert raws == raws[..n] + [raws[n]];
    }
  }

  predicate SendsOk(raw: string, offline: bool, sent: bool) {
    ParseEnvelope(raw).subject != "" && !offline && sent
  }

  /** What one turn of the sender does with the first envelope: a malformed one, a sent one and one that has its file to
      fall back on while offline are gone from the queue; a failed plate returns to the front, everything else to the
      back. Only an accepted message takes its file along. */
  ghost predicate Turned(
      queue: seq<string>, files: map<string, Message>, accepted: seq<Message>,
      queue': seq<string>, files': map<string, Message>, accepted': seq<Message>,
      offline: bool, sent: bool, removed: bool)
    requires queue != []
  {
    var raw, rest := queue[0], queue[1..];
    var pm := ParseEnvelope(raw);
    var ok := SendsOk(raw, offline, sent);
    accepted' == (if ok then accepted + [Message(pm.subject, pm.payload)] else accepted) &&
    files' == (if ok && pm.durable && removed then files - {pm.file.value} else files) &&
    queue' ==
      if pm.subject == "" || ok || (offline && pm.durable) then rest
      else if !offline && pm.durable then [raw] + rest
      else rest + [raw]
  }

  // ----- The sender while every send and every removal succeeds -----

  /** The messages sent for these envelopes; malformed ones are dropped. */
  function Sent(raws: seq<string>): seq<Message> {
    if raws == [] then []
    else
      var pm := ParseEnvelope(raws[0]);
      (if pm.subject == "" then [] else [Message(pm.subject, pm.payload)]) + Sent(raws[1..])
  }

  predicate Removes(raw: string, f: string) {
    var pm := ParseEnvelope(raw);
    pm.subject != "" && pm.durable && pm.file == Some(f)
  }

  /** The files that sending these envelopes leaves. */
  function Left(raws: seq<string>, files: map<string, Message>): map<string, Message> {
    if raws == [] then files
    else
      var pm := ParseEnvelope(raws[0]);
      Left(raws[1..], if pm.subject != "" && pm.durable then files - {pm.file.value} else files)
  }

  lemma {:induction false} LeftExactly(raws: seq<string>, files: map<string, Message>, f: string)
    ensures f in Left(raws, files) <==> f in files && forall i | 0 <= i < |raws| :: !Removes(raws[i], f)
    decreases |raws|
  {
    if raws == [] {
    } else {
      var pm := ParseEnvelope(raws[0]);
      var rest := if pm.subject != "" && pm.durable then files - {pm.file.value} else files;
      assert f in rest <==> f in files && !Removes(raws[0], f);
      hide Removes, ParseEnvelope;
      LeftExactly(raws[1..], rest, f);
      assert forall i | 0 < i < |raws| :: raws[i] == raws[1..][i - 1];
      assert forall i | 0 <= i < |raws[1..]| :: raws[1..][i] == raws[i + 1];
    }
  }

  lemma {:induction false} SentHas(raws: seq<string>, i: nat)
    requires i < |raws| && ParseEnvelope(raws[i]).subject != ""
    ensures Message(ParseEnvelope(raws[i]).subject, ParseEnvelope(raws[i]).payload) in Sent(raws)
    decreases |raws|
  {
    hide ParseEnvelope;
    if i == 0 {
    } else {
      assert raws[i] == raws[1..][i - 1];
      SentHas(raws[1..], i - 1);
    }
  }

  lemma {:induction false} OneSent(
      queue: seq<string>, files: map<string, Message>, accepted: seq<Message>,
      queue': seq<string>, files': map<string, Message>, accepted': seq<Message>)
    requires queue != [] && Turned(queue, files, accepted, queue', files', accepted', false, true, true)
    ensures queue' == queue[1..] && Left(queue', files') == Left(queue, files)
    ensures accepted' + Sent(queue') == accepted + Sent(queue)
  {
    hide ParseEnvelope;
    var pm := ParseEnvelope(queue[0]);
    var first := if pm.subject == "" then [] else [Message(pm.subject, pm.payload)];
    assert accepted' == accepted + first;
    assert (accepted + first) + Sent(queue[1..]) == accepted + (first + Sent(queue[1..]));
  }

  /** File and message that an envelope carries unharmed. */
  predicate Carries(f: string, m: Message) {
    '|' !in f && ':' !in m.subject && m.subject != ""
  }

  /** With an envelope for every file at the end of the queue, whatever is before them: sending the whole queue leaves no
      file behind and sends the message of each. */
  lemma {:induction false} QueueDrains(queue: seq<string>, files: map<string, Message>, names: seq<string>)
    requires forall f | f in files :: f in names && Carries(f, files[f])
    requires |names| <= |queue| && ForEachFile(Last(queue, |names|), files, names)
    ensures Left(queue, files) == map[]
    ensures forall f | f in files :: files[f] in Sent(queue)
  {
    hide ParseEnvelope, EnvelopeOf, Carries, Left, Sent;
    forall f | f in files ensures f !in Left(queue, files) && files[f] in Sent(queue) {
      var k: nat :| k < |names| && names[k] == f;
      var i := |queue| - |names| + k;
      assert queue[i] == Last(queue, |names|)[k];
      EnvelopeCarries(f, files[f]);
      SentHas(queue, i);
      LeftExactly(queue, files, f);
    }
    forall f ensures f !in Left(queue, files) {
      LeftExactly(queue, files, f);
    }
  }

  lemma EnvelopeCarries(f: string, m: Message)
    requires Carries(f, m)
    ensures var raw := EnvelopeOf(f, m);
      var pm := ParseEnvelope(raw);
      Removes(raw, f) && pm.subject != "" && Message(pm.subject, pm.payload) == m
  {
    DurableParsesBack(f, m.subject, m.payload);
  }

  class Transport {
    const maxQueue: nat
    var queue: seq<string>
    var files: map<string, Message>
    var running: bool
    var disconnected: bool
    var connected: bool
    var accepted: seq<Message>

    constructor (maxQueue: nat, files: map<string, Message>)
      ensures this.maxQueue == maxQueue && this.files == files
      ensures queue == [] && !running && !disconnected && !connected && accepted == []
    {
      this.maxQueue := maxQueue;
      this.files := files;
      queue, running, disconnected, connected, accepted := [], false, false, false, [];
    }

    method EnqueueRaw(raw: string)
      requires maxQueue > 0
      modifies this`queue
      ensures queue == Enqueued(old(queue), maxQueue, raw)
    {
      if |queue| >= maxQueue {
        queue := queue[1..];
      }
      queue := queue + [raw];
    }

    /** `name` is the drawn file name, `written` whether the rename succeeded. */
    method PersistToDisk(m: Message, name: string, written: bool)
      modifies this`files
      ensures files == if written then old(files)[name := m] else old(files)
    {
      if written {
        files := files[name := m];
      }
    }

    /** `listing` is the outbox directory in the order the file system yields it; names that are gone are skipped. */
    method EnqueueOutbox(listing: seq<string>) returns (names: seq<string>)
      requires maxQueue > 0
      modifies this`queue
      ensures SortedBy(names, StringAtMost) && multiset(names) == multiset(listing)
      ensures queue == EnqueuedAll(old(queue), maxQueue, Envelopes(files, names))
    {
      StringsAreOrdered();
      names := Sort(listing, StringAtMost);
      for i := 0 to |names|
        invariant queue == EnqueuedAll(old(queue), maxQueue, Envelopes(files, names[..i]))
      {
        assert names[..i + 1][..i] == names[..i];
        var f := names[i];
        if f in files {
          ghost var before := Envelopes(files, names[..i]);
          assert (before + [EnvelopeOf(f, files[f])])[..|before|] == before;
          EnqueueRaw("DURABLE|" + f + "|" + files[f].subject + ":" + files[f].payload);
        } else {
          assert Envelopes(files, names[..i]) + [] == Envelopes(files, names[..i]);
        }
      }
      assert names[..|names|] == names;
    }

    method Publish(m: Message) returns (queued: bool)
      requires maxQueue > 0
      modifies this`queue
      ensures queued == running
      ensures queue == if running then Enqueued(old(queue), maxQueue, CoreForm(m.subject, m.payload)) else old(queue)
    {
      if !running {
        return false;
      }
      EnqueueRaw(m.subject + ":" + m.payload);
      queued := true;
    }

    method PublishDurable(m: Message, name: string, written: bool)
      requires maxQueue > 0
      modifies this`queue, this`files
      ensures files == if (!running || disconnected) && written then old(files)[name := m] else old(files)
      ensures queue ==
        if !running then old(queue)
        else if disconnected then Enqueued(old(queue), maxQueue, EnvelopeOf(name, m))
        else Enqueued(old(queue), maxQueue, JetForm(m.subject, m.payload))
    {
      if !running {
        PersistToDisk(m, name, written);
        return;
      }
      if disconnected {
        PersistToDisk(m, name, written);
        EnqueueRaw("DURABLE|" + name + "|" + m.subject + ":" + m.payload);
      } else {
        EnqueueRaw("J|" + m.subject + ":" + m.payload);
      }
    }

    /** One turn of `senderLoop` with a non-empty queue. `sent` is the status of the send, `removed` whether the backing
        file could be deleted. */
    method SendOne(sent: bool, removed: bool) returns (ok: bool)
      requires queue != []
      modifies this`queue, this`files, this`accepted
      ensures ok == SendsOk(old(queue)[0], disconnected || !connected, sent)
      ensures Turned(
        old(queue), old(files), old(accepted), queue, files, accepted, disconnected || !connected, sent, removed)
    {
      var raw := queue[0];
      queue := queue[1..];
      var pm := ParseEnvelope(raw);
      if pm.subject == "" {
        return false;
      }
      if disconnected || !connected {
        if !pm.durable {
          queue := queue + [raw];
        }
        return false;
      }
      ok := sent;
      if sent {
        accepted := accepted + [Message(pm.subject, pm.payload)];
        if pm.durable && removed {
          files := files - {pm.file.value};
        }
      } else if pm.durable {
        queue := [raw] + queue;
      } else {
        queue := queue + [raw];
      }
    }

    /** The reconnect callback, with nothing else in between: afterwards the queue ends with an envelope for every file,
        in file-name order. */
    method OnReconnected(listing: seq<string>) returns (names: seq<string>)
      requires maxQueue > 0 && |listing| <= maxQueue
      requires forall f :: f in listing <==> f in files
      modifies this`queue, this`disconnected
      ensures !disconnected
      ensures SortedBy(names, StringAtMost) && forall f :: f in names <==> f in files
      ensures |names| <= |queue| && ForEachFile(Last(queue, |names|), files, names)
    {
      disconnected := false;
      names := EnqueueOutbox(listing);
      assert forall f :: f in names <==> f in multiset(names);
      assert forall f :: f in listing <==> f in multiset(listing);
      assert |names| == |multiset(names)| == |listing|;
      AllReadable(files, names);
      EnqueuedAllKeeps(old(queue), maxQueue, Envelopes(files, names));
    }

    /** `senderLoop` until the queue is empty, online, with every send and removal succeeding. */
    method SendAll()
      requires connected && !disconnected
      modifies this`queue, this`files, this`accepted
      ensures queue == [] && files == Left(old(queue), old(files)) && accepted == old(accepted) + Sent(old(queue))
    {
      while queue != []
        invariant Left(queue, files) == Left(old(queue), old(files))
        invariant accepted + Sent(queue) == old(accepted) + Sent(old(queue))
        decreases |queue|
      {
        hide Turned, Left, Sent;
        ghost var before, left, said := queue, files, accepted;
        var ok := SendOne(true, true);
        OneSent(before, left, said, queue, files, accepted);
      }
    }

    /** What the outbox is for: a reconnect after which everything succeeds empties it, and every message in it has been
        accepted. */
    method ReconnectAndSend(listing: seq<string>)
      requires maxQueue > 0 && |listing| <= maxQueue && connected
      requires forall f :: f in listing <==> f in files
      requires forall f | f in files :: Carries(f, files[f])
      modifies this`queue, this`disconnected, this`files, this`accepted
      ensures queue == [] && files == map[]
      ensures old(accepted) <= accepted && forall f | f in old(files) :: old(files)[f] in accepted
    {
      hide Left, Sent, ForEachFile;
      var names := OnReconnected(listing);
      QueueDrains(queue, files, names);
      SendAll();
    }
  }

  /** One envelope for each of the named files, in the same order. */
  ghost predicate ForEachFile(raws: seq<string>, files: map<string, Message>, names: seq<string>) {
    |raws| == |names| &&
    forall i | 0 <= i < |names| :: names[i] in files && raws[i] == EnvelopeOf(names[i], files[names[i]])
  }

  lemma {:induction false} AllReadable(files: map<string, Message>, names: seq<string>)
    requires forall f | f in names :: f in files
    ensures ForEachFile(Envelopes(files, names), files, names)
  {
    if names == [] {
    } else {
      var n := |names| - 1;
      hide EnvelopeOf;
      assert names[n] in names;
      AllReadable(files, names[..n]);
    }
  }
}
