/**
 The three string forms of a queued message (src/net/NatsTransport.cpp:108-137). Parsing is shown to undo building for
 every payload, under exactly the conditions on subject and path that the forms need.
 */
module Envelope {
  import opened Plates

  datatype Parsed = Parsed(subject: string, payload: string, durable: bool, jetstream: bool, file: Option<string>)

  const NOTHING := Parsed("", "", false, false, None)

  function DurableForm(path: string, subject: string, payload: string): string {
    "DURABLE|" + path + "|" + subject + ":" + payload
  }

  function JetForm(subject: string, payload: string): string {
    "J|" + subject + ":" + payload
  }

  function CoreForm(subject: string, payload: string): string {
    subject + ":" + payload
  }

  /** Index of the first `c` at or after `from`; the length of the string if there is none. */
  function Find(s: string, c: char, from: nat): (i: nat)
    requires from <= |s|
    ensures from <= i <= |s| && (i < |s| ==> s[i] == c)
    ensures forall k | from <= k < i :: s[k] != c
    decreases |s| - from
  {
    if from == |s| || s[from] == c then from else Find(s, c, from + 1)
  }

  /** Subject and payload on either side of the first colon; both empty without a colon. */
  function Split(s: string): (string, string) {
    var colon := Find(s, ':', 0);
    if colon < |s| then (s[..colon], s[colon + 1..]) else ("", "")
  }

  function ParseEnvelope(s: string): Parsed {
    if "DURABLE|" <= s then
      var bar := Find(s, '|', 8);
      if bar == |s| then NOTHING
      else
        var (subject, payload) := Split(s[bar + 1..]);
        Parsed(subject, payload, true, true, Some(s[8..bar]))
    else if "J|" <= s then
      var (subject, payload) := Split(s[2..]);
      Parsed(subject, payload, false, true, None)
    else
      var (subject, payload) := Split(s);
      Parsed(subject, payload, false, false, None)
  }

  lemma SplitJoin(subject: string, payload: string)
    ensures Split(CoreForm(subject, payload)) == (subject, payload) <==> ':' !in subject
  {
    var s := CoreForm(subject, payload);
    var colon := Find(s, ':', 0);
    assert s[|subject|] == ':';
    if ':' !in subject {
      assert forall k | 0 <= k < |subject| :: s[k] == subject[k];
      assert colon == |subject|;
      assert s[..colon] == subject && s[colon + 1..] == payload;
    } else {
      var k: nat :| k < |subject| && subject[k] == ':';
      assert s[k] == ':';
      assert colon <= k;
      assert |s[..colon]| < |subject|;
    }
  }

  /** An offline plate comes back exactly if the path has no bar and the subject no colon. */
  lemma DurableParsesBack(path: string, subject: string, payload: string)
    ensures ParseEnvelope(DurableForm(path, subject, payload)) == Parsed(subject, payload, true, true, Some(path)) <==>
      '|' !in path && ':' !in subject
  {
    var s := DurableForm(path, subject, payload);
    var bar := Find(s, '|', 8);
    assert s[8 + |path|] == '|';
    assert s[..8] == "DURABLE|";
    assert forall k | 0 <= k < |path| :: s[8 + k] == path[k];
    if '|' !in path {
      assert forall k | 8 <= k < 8 + |path| :: s[k] == path[k - 8];
      assert bar == 8 + |path|;
      assert s[8..bar] == path;
      assert s[bar + 1..] == CoreForm(subject, payload);
      SplitJoin(subject, payload);
    } else {
      var k: nat :| k < |path| && path[k] == '|';
      assert s[8 + k] == '|';
      assert bar <= 8 + k;
      assert |s[8..bar]| < |path|;
    }
  }

  /** An online plate comes back exactly if the subject has no colon. */
  lemma JetParsesBack(subject: string, payload: string)
    ensures ParseEnvelope(JetForm(subject, payload)) == Parsed(subject, payload, false, true, None) <==> ':' !in subject
  {
    var s := JetForm(subject, payload);
    assert s[0] == 'J' && s[..2] == "J|";
    assert s[2..] == CoreForm(subject, payload);
    SplitJoin(subject, payload);
  }

  /** A plain message comes back exactly if its subject has no colon and does not pose as one of the other forms. */
  lemma CoreParsesBack(subject: string, payload: string)
    ensures ParseEnvelope(CoreForm(subject, payload)) == Parsed(subject, payload, false, false, None) <==>
      ':' !in subject && !("DURABLE|" <= subject) && !("J|" <= subject)
  {
    var s := CoreForm(subject, payload);
    SplitJoin(subject, payload);
    PrefixOfSubject("DURABLE|", subject, payload);
    PrefixOfSubject("J|", subject, payload);
    if ':' !in subject && "DURABLE|" <= subject {
      assert subject != "";
    }
  }

  lemma PrefixOfSubject(p: string, subject: string, payload: string)
    requires ':' !in p
    ensures p <= CoreForm(subject, payload) <==> p <= subject
  {
    var s := CoreForm(subject, payload);
    assert s[|subject|] == ':';
    if p <= s {
      assert forall k | 0 <= k < |p| :: p[k] == s[k];
      assert |p| <= |subject|;
      assert p == s[..|p|] == subject[..|p|];
    }
    if p <= subject {
      assert s[..|p|] == subject[..|p|];
    }
  }
}
