/**
 Greedy CTC decoding (src/detect/CtcDecoder.cpp:8-41), text only. A letter of the alphabet is a `char` of the source, which
 is signed: letters outside ASCII are negative, and a negative letter is taken for none at all.
 */
module CtcDecoder {
  type Letter = x: int | -128 <= x < 128

  // ----- What the text should be -----

  /** The first place of the greatest value. */
  ghost predicate IsFirstMax(row: seq<real>, m: nat) {
    m < |row| && (forall c | 0 <= c < m :: row[c] < row[m]) && (forall c | m < c < |row| :: row[c] <= row[m])
  }

  function FirstMax(row: seq<real>): (m: nat)
    requires row != []
    ensures IsFirstMax(row, m)
  {
    var n := |row| - 1;
    if n == 0 then 0
    else
      var m := FirstMax(row[..n]);
      if row[n] > row[m] then n else m
  }

  lemma FirstMaxIsUnique(row: seq<real>, m: nat, n: nat)
    requires IsFirstMax(row, m) && IsFirstMax(row, n)
    ensures m == n
  {
    assert row[m] <= row[n] && row[n] <= row[m];
  }

  function Row(data: seq<real>, t: nat, numClasses: nat): (row: seq<real>)
    requires t * numClasses + numClasses <= |data|
    ensures |row| == numClasses
  {
    data[t * numClasses..t * numClasses + numClasses]
  }

  /** The best class of each of the first `t` rows. */
  function Path(data: seq<real>, t: nat, numClasses: nat): (path: seq<nat>)
    requires numClasses > 0 && t * numClasses <= |data|
    ensures |path| == t
  {
    if t == 0 then []
    else
      RowsFit(data, t - 1, t, numClasses);
      Path(data, t - 1, numClasses) + [FirstMax(Row(data, t - 1, numClasses))]
  }

  lemma RowsFit(data: seq<real>, t: nat, timesteps: nat, numClasses: nat)
    requires t < timesteps && timesteps * numClasses <= |data|
    ensures t * numClasses + numClasses <= timesteps * numClasses
    ensures t * numClasses <= |data|
  {
    assert t * numClasses + numClasses == (t + 1) * numClasses;
    assert (t + 1) * numClasses <= timesteps * numClasses;
  }

  /** One element for each run of equal ones. */
  function Collapse(path: seq<nat>): seq<nat> {
    var n := |path| - 1;
    if n < 0 then []
    else if n > 0 && path[n - 1] == path[n] then Collapse(path[..n])
    else Collapse(path[..n]) + [path[n]]
  }

  /** `classToChar`: blank and classes without a letter give -1. */
  function LetterOf(c: int, alphabet: seq<Letter>, blankIndex: int): Letter {
    if c == blankIndex then -1
    else
      var idx := if c < blankIndex then c else c - 1;
      if 0 <= idx < |alphabet| then alphabet[idx] else -1
  }

  /** The letters of the classes, in order, as far as they have one. */
  function Letters(classes: seq<nat>, alphabet: seq<Letter>, blankIndex: int): seq<Letter> {
    if classes == [] then []
    else
      var n := |classes| - 1;
      var letter := LetterOf(classes[n], alphabet, blankIndex);
      Letters(classes[..n], alphabet, blankIndex) + if letter >= 0 then [letter] else []
  }

  // ----- The loop -----

  method ArgMax(data: seq<real>, row: nat, numClasses: nat) returns (amax: nat)
    requires numClasses > 0 && row + numClasses <= |data|
    ensures IsFirstMax(data[row..row + numClasses], amax)
  {
    amax := 0;
    var mx := data[row];
    var c := 1;
    while c < numClasses
      invariant 1 <= c <= numClasses && amax < c && mx == data[row + amax]
      invariant IsFirstMax(data[row..row + c], amax)
    {
      assert data[row..row + c + 1] == data[row..row + c] + [data[row + c]];
      if data[row + c] > mx {
        mx := data[row + c];
        amax := c;
      }
      c := c + 1;
    }
  }

  /** A negative number of rows is none. */
  function Steps(timesteps: int): nat {
    if timesteps < 0 then 0 else timesteps
  }

  method CtcGreedyDecode(data: seq<real>, timesteps: int, numClasses: nat, alphabet: seq<Letter>, blankIndex: int)
    returns (out: seq<Letter>)
    requires numClasses > 0 && Steps(timesteps) * numClasses <= |data|
    ensures out == Letters(Collapse(Path(data, Steps(timesteps), numClasses)), alphabet, blankIndex)
  {
    hide Path, Collapse, Letters, IsFirstMax;
    out := [];
    var prev: int := -1;
    var t := 0;
    EmptyPath(data, numClasses, alphabet, blankIndex);
    while t < timesteps
      invariant t <= Steps(timesteps) && t * numClasses <= |data|
      invariant
        var path := Path(data, t, numClasses);
        out == Letters(Collapse(path), alphabet, blankIndex) && prev == if t == 0 then -1 else path[t - 1]
    {
      NextRow(data, t, timesteps, numClasses);
      var amax := ArgMax(data, t * numClasses, numClasses);
      FirstMaxIsUnique(Row(data, t, numClasses), amax, FirstMax(Row(data, t, numClasses)));
      NextClass(Path(data, t, numClasses), amax, alphabet, blankIndex);
      if amax != blankIndex && amax != prev {
        var ch := LetterOf(amax, alphabet, blankIndex);
        if ch >= 0 {
          out := out + [ch];
        }
      }
      prev := amax;
      t := t + 1;
    }
  }

  lemma {:induction false} EmptyPath(data: seq<real>, numClasses: nat, alphabet: seq<Letter>, blankIndex: int)
    requires numClasses > 0
    ensures 0 * numClasses <= |data| && Path(data, 0, numClasses) == []
    ensures Letters(Collapse([]), alphabet, blankIndex) == []
  {
  }

  lemma NextRow(data: seq<real>, t: nat, timesteps: nat, numClasses: nat)
    requires numClasses > 0 && t < timesteps && timesteps * numClasses <= |data|
    ensures (t + 1) * numClasses <= |data| && t * numClasses + numClasses <= |data|
    ensures Path(data, t + 1, numClasses) == Path(data, t, numClasses) + [FirstMax(Row(data, t, numClasses))]
  {
    hide FirstMax, Row;
    RowsFit(data, t, timesteps, numClasses);
    assert (t + 1) * numClasses <= |data|;
  }

  lemma {:induction false} NextClass(path: seq<nat>, c: nat, alphabet: seq<Letter>, blankIndex: int)
    ensures var text := Letters(Collapse(path), alphabet, blankIndex);
      var letter := LetterOf(c, alphabet, blankIndex);
      Letters(Collapse(path + [c]), alphabet, blankIndex) ==
      if letter >= 0 && (path == [] || path[|path| - 1] != c) then text + [letter] else text
  {
    hide LetterOf;
    assert (path + [c])[..|path|] == path;
    assert (Collapse(path) + [c])[..|Collapse(path)|] == Collapse(path);
  }

  // ----- Every text can be written and read back -----

  /** The class of a letter, given its place in the alphabet. */
  function ClassOf(k: nat, blankIndex: nat): nat {
    if k < blankIndex then k else k + 1
  }

  /** A word as a sequence of places in the alphabet. */
  predicate InAlphabet(word: seq<nat>, alphabet: seq<Letter>) {
    forall i | 0 <= i < |word| :: word[i] < |alphabet|
  }

  predicate AllAscii(word: seq<nat>, alphabet: seq<Letter>)
    requires InAlphabet(word, alphabet)
  {
    forall i | 0 <= i < |word| :: alphabet[word[i]] >= 0
  }

  function Spelled(word: seq<nat>, alphabet: seq<Letter>): seq<Letter>
    requires InAlphabet(word, alphabet)
  {
    if word == [] then []
    else
      var n := |word| - 1;
      Spelled(word[..n], alphabet) + [alphabet[word[n]]]
  }

  /** The classes of a word, with a blank between equal neighbours. */
  function Written(word: seq<nat>, blankIndex: nat): seq<nat> {
    if word == [] then []
    else
      var n := |word| - 1;
      Written(word[..n], blankIndex) +
      (if n > 0 && word[n - 1] == word[n] then [blankIndex] else []) + [ClassOf(word[n], blankIndex)]
  }

  function Repeat(c: nat, n: nat): seq<nat> {
    if n == 0 then [] else Repeat(c, n - 1) + [c]
  }

  /** Each class held for some number of rows. */
  function Stretched(classes: seq<nat>, lengths: seq<nat>): seq<nat>
    requires |classes| == |lengths|
  {
    if classes == [] then []
    else
      var n := |classes| - 1;
      Stretched(classes[..n], lengths[..n]) + Repeat(classes[n], lengths[n])
  }

  ghost predicate NeighboursDiffer(s: seq<nat>) {
    forall i | 0 < i < |s| :: s[i - 1] != s[i]
  }

  lemma {:induction false} CollapseRun(path: seq<nat>, c: nat, n: nat)
    requires n > 0 && (path == [] || path[|path| - 1] != c)
    ensures Collapse(path + Repeat(c, n)) == Collapse(path) + [c]
  {
    var run := path + Repeat(c, n);
    assert run[..|run| - 1] == path + Repeat(c, n - 1);
    if n == 1 {
      assert run[..|run| - 1] == path;
    } else {
      CollapseRun(path, c, n - 1);
      assert run[|run| - 2] == c;
    }
  }

  /** Collapsing undoes any stretching of classes that differ from their neighbours. */
  lemma {:induction false} CollapseUndoesStretching(classes: seq<nat>, lengths: seq<nat>)
    requires |classes| == |lengths| && NeighboursDiffer(classes) && forall i | 0 <= i < |lengths| :: lengths[i] > 0
    ensures Collapse(Stretched(classes, lengths)) == classes
    ensures classes != [] ==>
      var path := Stretched(classes, lengths); path != [] && path[|path| - 1] == classes[|classes| - 1]
  {
    if classes == [] {
    } else {
      var n := |classes| - 1;
      CollapseUndoesStretching(classes[..n], lengths[..n]);
      CollapseRun(Stretched(classes[..n], lengths[..n]), classes[n], lengths[n]);
      assert classes == classes[..n] + [classes[n]];
    }
  }

  lemma {:induction false} WrittenNeighboursDiffer(word: seq<nat>, blankIndex: nat)
    ensures NeighboursDiffer(Written(word, blankIndex))
    ensures word != [] ==>
      var w := Written(word, blankIndex); w != [] && w[|w| - 1] == ClassOf(word[|word| - 1], blankIndex)
  {
    if word == [] {
    } else {
      WrittenNeighboursDiffer(word[..|word| - 1], blankIndex);
    }
  }

  /** Reading what was written gives exactly the word, unless it has a negative letter: that one gets lost. */
  lemma {:induction false} WrittenReadsBack(word: seq<nat>, alphabet: seq<Letter>, blankIndex: nat)
    requires InAlphabet(word, alphabet)
    ensures var text := Letters(Written(word, blankIndex), alphabet, blankIndex);
      |text| <= |word| == |Spelled(word, alphabet)| &&
      (text == Spelled(word, alphabet) <==> AllAscii(word, alphabet))
  {
    if word != [] {
      hide Letters, Written, Spelled, ClassOf;
      var n := |word| - 1;
      var before, letter := word[..n], alphabet[word[n]];
      WrittenReadsBack(before, alphabet, blankIndex);
      WrittenOneMore(word, blankIndex);
      LastSpelled(word, alphabet);
      LettersOfNext(
        Written(before, blankIndex), word[n], n > 0 && word[n - 1] == word[n], alphabet, blankIndex);
      SameEnd(Letters(Written(before, blankIndex), alphabet, blankIndex), Spelled(before, alphabet), letter);
      LastIsAscii(word, alphabet);
    } else {
      assert Written(word, blankIndex) == [];
    }
  }

  /** Whatever class is read as a letter is the class of that letter at its place in the alphabet. */
  lemma LetterHasItsClass(c: nat, alphabet: seq<Letter>, blankIndex: nat)
    ensures c == blankIndex ==> LetterOf(c, alphabet, blankIndex) < 0
    ensures LetterOf(c, alphabet, blankIndex) >= 0 ==>
      exists k: nat :: k < |alphabet| && ClassOf(k, blankIndex) == c && alphabet[k] == LetterOf(c, alphabet, blankIndex)
  {
    var k := if c < blankIndex then c else c - 1;
    if LetterOf(c, alphabet, blankIndex) >= 0 {
      assert ClassOf(k, blankIndex) == c;
    }
  }

  lemma LastIsAscii(word: seq<nat>, alphabet: seq<Letter>)
    requires word != [] && InAlphabet(word, alphabet)
    ensures AllAscii(word, alphabet) <==>
      alphabet[word[|word| - 1]] >= 0 && AllAscii(word[..|word| - 1], alphabet)
  {
    var before := word[..|word| - 1];
    assert forall i | 0 <= i < |before| :: before[i] == word[i];
  }

  lemma SameEnd(a: seq<Letter>, b: seq<Letter>, x: Letter)
    ensures a + [x] == b + [x] <==> a == b
  {
    assert (a + [x])[..|a|] == a && (b + [x])[..|b|] == b;
  }

  lemma {:induction false} LettersOfNext(w: seq<nat>, k: nat, repeated: bool, alphabet: seq<Letter>, blankIndex: nat)
    requires k < |alphabet|
    ensures var text, letter := Letters(w, alphabet, blankIndex), alphabet[k];
      var c := ClassOf(k, blankIndex);
      Letters(if repeated then w + [blankIndex] + [c] else w + [c], alphabet, blankIndex) ==
      if letter >= 0 then text + [letter] else text
  {
    hide Letters;
    var c := ClassOf(k, blankIndex);
    if repeated {
      LettersOfOneMore(w, blankIndex, alphabet, blankIndex);
      LettersOfOneMore(w + [blankIndex], c, alphabet, blankIndex);
    } else {
      LettersOfOneMore(w, c, alphabet, blankIndex);
    }
  }

  lemma {:induction false} LastSpelled(word: seq<nat>, alphabet: seq<Letter>)
    requires word != [] && InAlphabet(word, alphabet)
    ensures var n := |word| - 1; Spelled(word, alphabet) == Spelled(word[..n], alphabet) + [alphabet[word[n]]]
  {
  }

  lemma {:induction false} WrittenOneMore(word: seq<nat>, blankIndex: nat)
    requires word != []
    ensures var n := |word| - 1;
      var w, c := Written(word[..n], blankIndex), ClassOf(word[n], blankIndex);
      Written(word, blankIndex) == if n > 0 && word[n - 1] == word[n] then w + [blankIndex] + [c] else w + [c]
  {
  }

  lemma {:induction false} LettersOfOneMore(classes: seq<nat>, c: nat, alphabet: seq<Letter>, blankIndex: int)
    ensures var text, letter := Letters(classes, alphabet, blankIndex), LetterOf(c, alphabet, blankIndex);
      Letters(classes + [c], alphabet, blankIndex) == if letter >= 0 then text + [letter] else text
  {
    hide LetterOf;
    assert (classes + [c])[..|classes|] == classes;
  }

  /** The row has its one greatest value at `m`. */
  ghost predicate PeakAt(data: seq<real>, t: nat, m: nat, numClasses: nat) {
    t * numClasses + numClasses <= |data| &&
    var row := Row(data, t, numClasses);
    m < numClasses && forall c: nat | c < numClasses && c != m :: row[c] < row[m]
  }

  ghost predicate Peaked(data: seq<real>, path: seq<nat>, numClasses: nat) {
    |path| * numClasses <= |data| && forall t: nat | t < |path| :: PeakAt(data, t, path[t], numClasses)
  }

  lemma {:induction false} PeaksGiveThePath(data: seq<real>, path: seq<nat>, numClasses: nat, t: nat)
    requires numClasses > 0 && Peaked(data, path, numClasses) && t <= |path|
    ensures t * numClasses <= |data| && Path(data, t, numClasses) == path[..t]
  {
    hide FirstMax, Row, PeakAt, Path;
    if t > 0 {
      PeaksGiveThePath(data, path, numClasses, t - 1);
      NextRow(data, t - 1, |path|, numClasses);
      PeakIsFirstMax(data, t - 1, path[t - 1], numClasses);
      assert path[..t] == path[..t - 1] + [path[t - 1]];
    } else {
      EmptyPath(data, numClasses, [], 0);
    }
  }

  lemma PeakIsFirstMax(data: seq<real>, t: nat, m: nat, numClasses: nat)
    requires numClasses > 0 && PeakAt(data, t, m, numClasses)
    ensures t * numClasses + numClasses <= |data| && FirstMax(Row(data, t, numClasses)) == m
  {
    hide FirstMax, Row;
    var row := Row(data, t, numClasses);
    FirstMaxIsUnique(row, m, FirstMax(row));
  }

  /** Whatever the position of the blank, a word written with blanks between equal letters, each class held as long as one
      likes, is read back from data peaked along it exactly if all its letters are ASCII. */
  lemma EveryTextIsRead(
      word: seq<nat>, lengths: seq<nat>, data: seq<real>, alphabet: seq<Letter>, blankIndex: nat)
    requires InAlphabet(word, alphabet)
    requires blankIndex <= |alphabet|
    requires |lengths| == |Written(word, blankIndex)| && forall i | 0 <= i < |lengths| :: lengths[i] > 0
    requires
      var path := Stretched(Written(word, blankIndex), lengths);
      Peaked(data, path, |alphabet| + 1)
    ensures
      var path := Stretched(Written(word, blankIndex), lengths);
      Letters(Collapse(Path(data, |path|, |alphabet| + 1)), alphabet, blankIndex) == Spelled(word, alphabet) <==>
      AllAscii(word, alphabet)
  {
    hide Letters, Written, Spelled, Path, Stretched, Peaked, Collapse;
    var classes := Written(word, blankIndex);
    var path := Stretched(classes, lengths);
    PeaksGiveThePath(data, path, |alphabet| + 1, |path|);
    assert path[..|path|] == path;
    WrittenNeighboursDiffer(word, blankIndex);
    CollapseUndoesStretching(classes, lengths);
    WrittenReadsBack(word, alphabet, blankIndex);
  }
}
