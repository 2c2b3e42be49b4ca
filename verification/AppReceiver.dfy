/** The receiving end of an application descriptor: the mapper task builds its graph of
    tasks from the message the injector made of the builder's image. */
module AppReceiver {
  import opened Division
  import opened RepoImage
  import opened AppLoader

  // ---- What the mapper reads ----

  /** The tasks one word names: none for 0. */
  function Named(w: Word): (r: seq<nat>)
    ensures r == if w == 0 then [] else [Abs(Signed(w)) - 1]
  {
    if Abs(Signed(w)) >= 1 then [Abs(Signed(w)) - 1] else []
  }

  /** One list of the stream, from place `p` to the word that is not positive, and the
      place after it. */
  function ReadList(comm: seq<Word>, p: nat): (r: Result<(seq<nat>, nat)>)
    ensures if r.Ok? then p < r.value.1 <= |comm| else r == Err(EndOfFile)
    decreases |comm| - p
  {
    if p >= |comm| then Err(EndOfFile)
    else if Signed(comm[p]) > 0 then
      var rest := ReadList(comm, p + 1);
      if rest.Ok? then Ok((Named(comm[p]) + rest.value.0, rest.value.1)) else rest
    else Ok((Named(comm[p]), p + 1))
  }

  /** The lists of `n` tasks, one after the other; the first task has number `from`. */
  function ReadLists(comm: seq<Word>, p: nat, n: nat): (r: Result<seq<seq<nat>>>)
    ensures if r.Ok? then |r.value| == n else r == Err(EndOfFile)
    decreases n
  {
    if n == 0 then Ok([])
    else
      var first := ReadList(comm, p);
      if first.Err? then Err(EndOfFile)
      else
        var rest := ReadLists(comm, first.value.1, n - 1);
        if rest.Err? then rest else Ok([first.value.0] + rest.value)
  }

  /** Reading on from `p` completes `done` to the result `r`. */
  ghost predicate Completes(comm: seq<Word>, p: nat, done: seq<nat>, r: Result<(seq<nat>, nat)>) {
    var rest := ReadList(comm, p);
    if rest.Ok? then r == Ok((done + rest.value.0, rest.value.1)) else r == Err(EndOfFile)
  }

  lemma ReadsOne(comm: seq<Word>, p: nat, done: seq<nat>, r: Result<(seq<nat>, nat)>)
    requires Completes(comm, p, done, r)
    ensures p >= |comm| ==> r.Err?
    ensures p < |comm| ==> if Signed(comm[p]) > 0 then Completes(comm, p + 1, done + Named(comm[p]), r)
                           else r == Ok((done + Named(comm[p]), p + 1))
  {
    if p < |comm| && Signed(comm[p]) > 0 && ReadList(comm, p + 1).Ok? {
      assert done + (Named(comm[p]) + ReadList(comm, p + 1).value.0) == done + Named(comm[p]) + ReadList(comm, p + 1).value.0;
    }
  }

  lemma NamesIt(comm: seq<Word>, p: nat, done: seq<nat>, r: Result<(seq<nat>, nat)>)
    requires Completes(comm, p, done, r) && p < |comm| && Signed(comm[p]) != 0
    ensures r.Ok? ==> |done| < |r.value.0| && r.value.0[|done|] == Abs(Signed(comm[p])) - 1
  {
  }

  ghost predicate CompletesAll(comm: seq<Word>, p: nat, n: nat, done: seq<seq<nat>>, r: Result<seq<seq<nat>>>) {
    var rest := ReadLists(comm, p, n);
    if rest.Ok? then r == Ok(done + rest.value) else r == Err(EndOfFile)
  }

  lemma ReadsOneList(comm: seq<Word>, p: nat, n: nat, done: seq<seq<nat>>, r: Result<seq<seq<nat>>>)
    requires CompletesAll(comm, p, n, done, r) && n > 0
    ensures var first := ReadList(comm, p);
            if first.Ok? then CompletesAll(comm, first.value.1, n - 1, done + [first.value.0], r) else r.Err?
    ensures r.Ok? ==> |done| < |r.value| && ReadList(comm, p).Ok? && r.value[|done|] == ReadList(comm, p).value.0
  {
    var first := ReadList(comm, p);
    if first.Ok? && ReadLists(comm, first.value.1, n - 1).Ok? {
      var rest := ReadLists(comm, first.value.1, n - 1).value;
      assert done + ([first.value.0] + rest) == done + [first.value.0] + rest;
    }
  }

  // ---- The mapper's graph ----

  predicate InRange(lists: seq<seq<nat>>, n: nat) {
    forall t, c :: 0 <= t < |lists| && 0 <= c < |lists[t]| ==> lists[t][c] < n
  }

  class App {
    var succs: seq<seq<nat>>
    var preds: seq<seq<nat>>

    /** Every edge is known at both of its ends, as often at the one as at the other. */
    ghost predicate Valid()
      reads this
    {
      && |succs| == |preds| && InRange(succs, |succs|)
      && forall t, s :: 0 <= t < |succs| && 0 <= s < |preds| ==> multiset(preds[s])[t] == multiset(succs[t])[s]
    }

    constructor (taskCnt: nat)
      ensures Valid() && |succs| == taskCnt && forall t :: 0 <= t < taskCnt ==> succs[t] == []
    {
      succs, preds := seq(taskCnt, i => []), seq(taskCnt, i => []);
    }

    method CommPushBack(vertex: nat, succ: nat)
      requires Valid() && vertex < |succs| && succ < |succs|
      modifies this
      ensures Valid() && succs == old(succs)[vertex := old(succs)[vertex] + [succ]]
    {
      succs := succs[vertex := succs[vertex] + [succ]];
      preds := preds[succ := preds[succ] + [vertex]];
    }

    /** Reads the list of task `i`; fails at the end of the message or on a task that does
        not exist. */
    method ReadTask(comm: seq<Word>, i: nat, start: nat) returns (ok: bool, next: nat)
      requires Valid() && i < |succs| && succs[i] == []
      modifies this
      ensures Valid() && |succs| == |old(succs)|
      ensures var r := ReadList(comm, start);
              ok <==> r.Ok? && forall c :: 0 <= c < |r.value.0| ==> r.value.0[c] < |succs|
      ensures ok ==> succs == old(succs)[i := ReadList(comm, start).value.0] && next == ReadList(comm, start).value.1
    {
      ghost var r := ReadList(comm, start);
      next := start;
      var encoded := 1;
      assert r.Ok? ==> [] + r.value.0 == r.value.0;
      while encoded > 0
        invariant Valid() && |succs| == |old(succs)| && succs == old(succs)[i := succs[i]]
        invariant if encoded > 0 then Completes(comm, next, succs[i], r) else r == Ok((succs[i], next))
        decreases |comm| - next, encoded
      {
        ReadsOne(comm, next, succs[i], r);
        if next >= |comm| { return false, next; }
        hide ReadList, Completes;
        encoded := Signed(comm[next]);
        ghost var before := succs[i];
        var succId := Abs(encoded) - 1;
        if succId >= 0 {
          if succId >= |succs| {
            NamesIt(comm, next, before, r);
            return false, next;
          }
          CommPushBack(i, succId);
        }
        assert succs[i] == before + Named(comm[next]);
        next := next + 1;
      }
      ok := true;
    }

    /** The graph of a new application. */
    method AppInit(comm: seq<Word>) returns (ok: bool)
      requires Valid() && forall t :: 0 <= t < |succs| ==> succs[t] == []
      modifies this
      ensures Valid() && |succs| == |old(succs)|
      ensures var r := ReadLists(comm, 0, |succs|); ok <==> r.Ok? && InRange(r.value, |succs|)
      ensures ok ==> ReadLists(comm, 0, |succs|) == Ok(succs)
    {
      hide ReadList;
      var i, next := 0, 0;
      ghost var n, r := |succs|, ReadLists(comm, 0, |succs|);
      assert r.Ok? ==> succs[..0] + r.value == r.value;
      while i < |succs|
        invariant Valid() && |succs| == n && i <= n
        invariant forall t :: i <= t < n ==> succs[t] == []
        invariant CompletesAll(comm, next, n - i, succs[..i], r)
      {
        ghost var before := succs;
        ReadsOneList(comm, next, n - i, succs[..i], r);
        hide CompletesAll, ReadLists;
        var read, p := ReadTask(comm, i, next);
        if !read { return false; }
        assert succs[..i + 1] == before[..i] + [succs[i]];
        next, i := p, i + 1;
      }
      assert succs[..i] + [] == succs;
      ok := true;
    }
  }

  // ---- From the builder to the mapper ----

  function Succs(tasks: seq<Task>): (r: seq<seq<nat>>)
    ensures |r| == |tasks| && forall t :: 0 <= t < |r| ==> r[t] == tasks[t].succ
  {
    seq(|tasks|, t requires 0 <= t < |tasks| => tasks[t].succ)
  }

  lemma NamedIs(succ: seq<nat>, c: nat)
    requires c < |succ| && succ[c] < 0x7FFF_FFFF
    ensures Named(DepWord(succ, c)) == [succ[c]] && (Signed(DepWord(succ, c)) > 0 <==> c < |succ| - 1)
  {
    DepWordSigned(succ, c);
  }

  lemma ReadsWord(comm: seq<Word>, p: nat)
    requires p < |comm|
    ensures Signed(comm[p]) <= 0 ==> ReadList(comm, p) == Ok((Named(comm[p]), p + 1))
    ensures Signed(comm[p]) > 0 && ReadList(comm, p + 1).Ok? ==>
      ReadList(comm, p) == Ok((Named(comm[p]) + ReadList(comm, p + 1).value.0, ReadList(comm, p + 1).value.1))
  {
  }

  /** The words name these tasks, and the last of them ends the list. */
  ghost predicate Spells(words: seq<Word>, names: seq<nat>) {
    && 0 < |words| == |names|
    && forall c :: 0 <= c < |words| ==> Named(words[c]) == [names[c]] && (Signed(words[c]) > 0 <==> c < |words| - 1)
  }

  /** A printed list reads back, whatever follows it in the stream. */
  lemma {:induction false} ListReadsBack(words: seq<Word>, names: seq<nat>, comm: seq<Word>, p: nat)
    requires Spells(words, names) && Holds(comm, p, words)
    ensures ReadList(comm, p) == Ok((names, p + |words|))
  {
    hide ReadList, Named, Signed;
    ReadsWord(comm, p);
    assert comm[p] == words[0] && Named(words[0]) == [names[0]] && (Signed(words[0]) > 0 <==> 0 < |words| - 1);
    if |words| > 1 {
      assert comm[p + 1] == words[1];
      ListReadsBack(words[1..], names[1..], comm, p + 1);
      assert names == [names[0]] + names[1..];
    } else {
      assert names == [names[0]];
    }
  }

  lemma DepWordsSpell(succ: seq<nat>, n: nat)
    requires ListFits(succ, n) && succ != []
    ensures Spells(DepWords(succ), succ)
  {
    hide Named, Signed, DepWord;
    forall c | 0 <= c < |succ|
      ensures Named(DepWords(succ)[c]) == [succ[c]] && (Signed(DepWords(succ)[c]) > 0 <==> c < |succ| - 1)
    {
      NamedIs(succ, c);
    }
  }

  lemma WholeListReadsBack(succ: seq<nat>, n: nat, comm: seq<Word>, p: nat)
    requires ListFits(succ, n) && Holds(comm, p, DepWords(succ))
    ensures ReadList(comm, p) == Ok((succ, p + |DepWords(succ)|))
  {
    if succ == [] {
      assert comm[p] == DepWords(succ)[0];
      SignedZero();
      ReadsWord(comm, p);
    } else {
      hide ReadList, Holds, ListFits, Spells;
      DepWordsSpell(succ, n);
      ListReadsBack(DepWords(succ), succ, comm, p);
    }
  }

  lemma {:induction false} StreamReadsBack(tasks: seq<Task>, n: nat, comm: seq<Word>, p: nat)
    requires forall t :: 0 <= t < |tasks| ==> ListFits(tasks[t].succ, n)
    requires Holds(comm, p, Deps(tasks))
    ensures ReadLists(comm, p, |tasks|) == Ok(Succs(tasks))
  {
    hide DepWords, ReadList, Holds, ListFits;
    if tasks != [] {
      var first := DepWords(tasks[0].succ);
      HoldsParts(comm, p, first, Deps(tasks[1..]));
      WholeListReadsBack(tasks[0].succ, n, comm, p);
      StreamReadsBack(tasks[1..], n, comm, p + |first|);
      assert Succs(tasks) == [tasks[0].succ] + Succs(tasks[1..]);
    }
  }

  lemma {:induction false} MappedAt(mapping: seq<Word>, i: nat)
    requires i < |mapping|
    ensures |Mapped(mapping)| == 2 * |mapping| && Mapped(mapping)[2 * i] == mapping[i] && Mapped(mapping)[2 * i + 1] == 1
  {
    MappedLength(mapping);
    if i > 0 { MappedAt(mapping[1..], i - 1); }
  }

  /** Where the mapper splits a message for `n` tasks. */
  function Communication(message: seq<Word>, n: nat): seq<Word>
    requires 2 * n + 3 <= |message|
  {
    message[2 * n + 3..]
  }

  lemma Splits(message: seq<Word>, head: seq<Word>, mapped: seq<Word>, deps: seq<Word>)
    requires message == head + mapped + deps
    ensures message[..|head|] == head && message[|head| + |mapped|..] == deps
    ensures forall k :: 0 <= k < |mapped| ==> message[|head| + k] == mapped[k]
  {
  }

  lemma MappedSits(message: seq<Word>, mapping: seq<Word>)
    requires 3 + 2 * |mapping| <= |message| && |Mapped(mapping)| == 2 * |mapping|
    requires forall k :: 0 <= k < 2 * |mapping| ==> message[3 + k] == Mapped(mapping)[k]
    ensures forall i :: 0 <= i < |mapping| ==> message[3 + 2 * i] == mapping[i] && message[3 + 2 * i + 1] == 1
  {
    hide Mapped;
    forall i | 0 <= i < |mapping|
      ensures message[3 + 2 * i] == mapping[i] && message[3 + 2 * i + 1] == 1
    {
      MappedAt(mapping, i);
      assert message[3 + (2 * i)] == Mapped(mapping)[2 * i] && message[3 + (2 * i + 1)] == Mapped(mapping)[2 * i + 1];
    }
  }

  lemma MessageParts(message: seq<Word>, injector: Word, mapping: seq<Word>, deps: seq<Word>)
    requires |mapping| < 0x1_0000_0000
    requires message == [NEW_APP, injector, |mapping| as Word] + Mapped(mapping) + deps
    ensures 2 * |mapping| + 3 <= |message| && message[..3] == [NEW_APP, injector, |mapping| as Word]
    ensures forall i :: 0 <= i < |mapping| ==> message[3 + 2 * i] == mapping[i] && message[3 + 2 * i + 1] == 1
    ensures Communication(message, |mapping|) == deps
  {
    hide Mapped;
    var head: seq<Word> := [NEW_APP, injector, |mapping| as Word];
    MappedLength(mapping);
    Splits(message, head, Mapped(mapping), deps);
    MappedSits(message, mapping);
  }

  lemma DepsReadBack(tasks: seq<Task>)
    requires Fits(tasks)
    ensures InRange(Succs(tasks), |tasks|) && ReadLists(Deps(tasks), 0, |tasks|) == Ok(Succs(tasks))
  {
    forall t | 0 <= t < |tasks|
      ensures ListFits(tasks[t].succ, |tasks|)
    {
      assert TaskFits(tasks[t], |tasks|);
    }
    hide RepoLines, Deps, ReadLists;
    StreamReadsBack(tasks, |tasks|, Deps(tasks), 0);
  }

  /** What the mapper makes of a message that announces `tasks`. */
  ghost predicate Announces(message: seq<Word>, injector: Word, mapping: seq<Word>, tasks: seq<Task>) {
    && 2 * |tasks| + 3 <= |message| && |tasks| == |mapping|
    && message[0] == NEW_APP && message[1] == injector && message[2] == |tasks|
    && (forall i :: 0 <= i < |tasks| ==> message[3 + 2 * i] == mapping[i] && message[3 + 2 * i + 1] == 1)
    && InRange(Succs(tasks), |tasks|)
    && ReadLists(Communication(message, |tasks|), 0, |tasks|) == Ok(Succs(tasks))
  }

  lemma IsAnnounced(message: seq<Word>, injector: Word, mapping: seq<Word>, tasks: seq<Task>)
    requires Fits(tasks) && |mapping| == |tasks| < 0x1_0000_0000
    requires message == [NEW_APP, injector, |mapping| as Word] + Mapped(mapping) + Deps(tasks)
    ensures Announces(message, injector, mapping, tasks)
  {
    hide Fits, Mapped, Deps, ReadLists, Communication;
    MessageParts(message, injector, mapping, Deps(tasks));
    DepsReadBack(tasks);
    assert message[0] == message[..3][0] && message[1] == message[..3][1] && message[2] == message[..3][2];
  }

  /** The mapper receives into a buffer of this many words. */
  const MSG_FLITS: nat := 128

  /** The announcement of these tasks is not longer than the buffer. */
  predicate FitsBuffer(tasks: seq<Task>) { 3 + 2 * |tasks| + |Deps(tasks)| <= MSG_FLITS }

  lemma AnnouncementLength(message: seq<Word>, injector: Word, mapping: seq<Word>, tasks: seq<Task>)
    requires |mapping| == |tasks| < 0x1_0000_0000
    requires message == [NEW_APP, injector, |mapping| as Word] + Mapped(mapping) + Deps(tasks)
    ensures FitsBuffer(tasks) <==> |message| <= MSG_FLITS
  {
    hide Mapped, Deps;
    MappedLength(mapping);
  }

  /** From the builder's image through the injector's packet, the mapper learns the number of
      tasks, the place of every task, and every successor list, read off one stream; the
      message is within the mapper's buffer exactly if two words for each task and the
      dependence lists leave room for the three words in front. */
  lemma GraphArrives(tasks: seq<Task>, mapping: seq<Word>, mapper: Word, injector: Word)
    requires Fits(tasks) && |mapping| == |tasks|
    ensures var packet := AppPacket(RepoLines(tasks), mapping, mapper, injector);
            packet.Ok? && |packet.value| > 15 && Announces(packet.value[13..], injector, mapping, tasks)
            && (|packet.value[13..]| <= MSG_FLITS <==> FitsBuffer(tasks))
  {
    assert |tasks| < 0x1_0000_0000;
    hide Fits, RepoLines, Mapped, Deps, AppPacket, ReadLists, Announces, FitsBuffer;
    AppRoundTrip(tasks, mapping, mapper, injector);
    var message := AppPacket(RepoLines(tasks), mapping, mapper, injector).value[13..];
    IsAnnounced(message, injector, mapping, tasks);
    AnnouncementLength(message, injector, mapping, tasks);
  }
}
