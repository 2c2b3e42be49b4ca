/** The injector's two readers of a repository image: the application descriptor packet and
    the task allocation packet, and that they recover what the builder was given. */
module AppLoader {
  import opened RepoImage

  datatype Error = EndOfFile | TaskOutOfRange

  datatype Result<T> = Ok(value: T) | Err(error: Error)

  const MESSAGE_DELIVERY: Word := 0x00000001
  const NEW_APP: Word := 0x00000010
  const TASK_ALLOCATION: Word := 0x00000040
  const CONSTANT_PACKET_SIZE: nat := 13
  const TASK_DESCRIPTOR_SIZE: nat := 5

  /** A 32-bit word as a signed number. */
  function Signed(w: Word): int { if w >= 0x8000_0000 then w - 0x1_0000_0000 else w }

  /** Two's complement. */
  lemma SignedIs(w: Word)
    ensures -0x8000_0000 <= Signed(w) < 0x8000_0000 && (Signed(w) - w) % 0x1_0000_0000 == 0
  {
  }

  // ---- What the readers compute ----

  /** The lines up to and including the first that is not positive as a signed number. */
  function CopyList(lines: seq<Word>, p: nat): (r: Result<seq<Word>>)
    ensures if r.Ok? then p + |r.value| <= |lines| && 0 < |r.value| else r == Err(EndOfFile)
    decreases |lines| - p
  {
    if p >= |lines| then Err(EndOfFile)
    else if Signed(lines[p]) > 0 then
      var rest := CopyList(lines, p + 1);
      if rest.Ok? then Ok([lines[p]] + rest.value) else rest
    else Ok([lines[p]])
  }

  function CopyLists(lines: seq<Word>, p: nat, n: nat): (r: Result<seq<Word>>)
    ensures if r.Ok? then p + |r.value| <= |lines| || n == 0 else r == Err(EndOfFile)
    decreases n
  {
    if n == 0 then Ok([])
    else
      var first := CopyList(lines, p);
      if first.Err? then first
      else
        var rest := CopyLists(lines, p + |first.value|, n - 1);
        if rest.Err? then rest else Ok(first.value + rest.value)
  }

  /** Each task's static address and its type tag. */
  function Mapped(mapping: seq<Word>): seq<Word> {
    if mapping == [] then [] else [mapping[0], 1] + Mapped(mapping[1..])
  }

  function AppHeader(mapper: Word, injector: Word, messageLen: nat): seq<Word> {
    [mapper, ToWord(CONSTANT_PACKET_SIZE + messageLen - 2), MESSAGE_DELIVERY, injector, 0, 0, 0, 0,
     ToWord(4 * messageLen), 0, 0, 0, 0]
  }

  /** The image of `lines` announced to the mapper: its tasks, where to put them, and their
      dependence lists. */
  function AppPacket(lines: seq<Word>, mapping: seq<Word>, mapper: Word, injector: Word): Result<seq<Word>> {
    if |lines| < 1 + 5 * |mapping| then Err(EndOfFile)
    else
      var deps := CopyLists(lines, 1 + 5 * |mapping|, |mapping|);
      if deps.Err? then deps
      else
        var message := [NEW_APP, injector, ToWord(|mapping|)] + Mapped(mapping) + deps.value;
        Ok(AppHeader(mapper, injector, |mapping| * 2 + 3 + |deps.value|) + message)
  }

  /** The code words of the task whose descriptor is at line `p`, the next line to read
      after it being `p + 5`. */
  function CodeStart(init: Word, p: nat): nat {
    if init / 4 > p + 5 then init / 4 else p + 5
  }

  function CodeWords(txt: Word, data: Word): nat { ToWord(txt + data) / 4 }

  function TaskHeader(id: Word, addr: Word, mapperId: Word, mapperAddr: Word, d: seq<Word>): seq<Word>
    requires |d| == 5
  {
    [addr, ToWord(CodeWords(d[0], d[1]) + CONSTANT_PACKET_SIZE - 2), TASK_ALLOCATION, id, mapperAddr, 0, 0, 0,
     mapperId, d[1], d[0], d[2], d[3]]
  }

  /** The packet that loads one task; the task's number is the low byte of `id`. */
  function TaskPacket(lines: seq<Word>, id: Word, addr: Word, mapperId: Word, mapperAddr: Word): Result<seq<Word>> {
    if lines == [] then Err(EndOfFile)
    else
      var t, p := id % 256, 1 + TASK_DESCRIPTOR_SIZE * (id % 256);
      if t >= lines[0] then Err(TaskOutOfRange)
      else if p + 5 > |lines| then Err(EndOfFile)
      else
        var d := lines[p..p + 5];
        var start, n := CodeStart(d[4], p), CodeWords(d[0], d[1]);
        if start + n > |lines| then Err(EndOfFile)
        else Ok(TaskHeader(id, addr, mapperId, mapperAddr, d) + lines[start..start + n])
  }

  // ---- The readers ----

  /** A file read line by line. */
  class LineReader {
    const lines: seq<Word>
    var next: nat

    constructor (file: seq<Word>)
      ensures lines == file && next == 0
    {
      lines, next := file, 0;
    }

    method GetLine() returns (r: Result<Word>)
      requires next <= |lines|
      modifies this
      ensures next <= |lines|
      ensures if old(next) < |lines| then r == Ok(lines[old(next)]) && next == old(next) + 1
              else r == Err(EndOfFile) && next == old(next)
    {
      if next < |lines| {
        r := Ok(lines[next]);
        next := next + 1;
      } else {
        r := Err(EndOfFile);
      }
    }

    method Skip(n: nat) returns (r: Result<Word>)
      requires next <= |lines|
      modifies this
      ensures next <= |lines|
      ensures if old(next) + n <= |lines| then r.Ok? && next == old(next) + n else r == Err(EndOfFile)
    {
      r := Ok(0);
      var i := 0;
      while i < n && r.Ok?
        invariant i <= n && next <= |lines|
        invariant if r.Ok? then next == old(next) + i else r == Err(EndOfFile) && old(next) + n > |lines|
      {
        r := GetLine();
        i := i + 1;
      }
    }

    method AppendLines(packet: seq<Word>, n: nat) returns (r: Result<seq<Word>>)
      requires next <= |lines|
      modifies this
      ensures next <= |lines|
      ensures if old(next) + n <= |lines| then r == Ok(packet + lines[old(next)..old(next) + n]) else r == Err(EndOfFile)
    {
      var out, i := packet, 0;
      while i < n
        invariant i <= n && next == old(next) + i <= |lines| && out == packet + lines[old(next)..next]
      {
        var line := GetLine();
        if line.Err? { return Err(EndOfFile); }
        out := out + [line.value];
        i := i + 1;
      }
      r := Ok(out);
    }

    /** Text, data and bss size, entry point and address of one task. */
    method GetDescriptor() returns (r: Result<seq<Word>>)
      requires next <= |lines|
      modifies this
      ensures next <= |lines|
      ensures if old(next) + 5 <= |lines| then r == Ok(lines[old(next)..old(next) + 5]) && next == old(next) + 5
              else r == Err(EndOfFile)
    {
      ghost var p := next;
      var txt := GetLine();
      var data := GetLine();
      var bss := GetLine();
      var entry := GetLine();
      var init := GetLine();
      if init.Err? { return Err(EndOfFile); }
      assert lines[p..p + 5] == [lines[p], lines[p + 1], lines[p + 2], lines[p + 3], lines[p + 4]];
      r := Ok([txt.value, data.value, bss.value, entry.value, init.value]);
    }

    /** Appends each task's static address and type tag, and skips its descriptor. */
    method AppendMapping(packet: seq<Word>, mapping: seq<Word>) returns (r: Result<seq<Word>>)
      requires next <= |lines|
      modifies this
      ensures next <= |lines|
      ensures if old(next) + 5 * |mapping| <= |lines|
              then r == Ok(packet + Mapped(mapping)) && next == old(next) + 5 * |mapping|
              else r == Err(EndOfFile)
    {
      var out, i := packet, 0;
      assert mapping[0..] == mapping;
      while i < |mapping|
        invariant i <= |mapping| && next == old(next) + 5 * i <= |lines|
        invariant out + Mapped(mapping[i..]) == packet + Mapped(mapping)
      {
        out := out + [mapping[i], 1];
        var line := Skip(5);
        if line.Err? { return Err(EndOfFile); }
        assert mapping[i..][1..] == mapping[i + 1..];
        i := i + 1;
      }
      assert out + [] == out;
      r := Ok(out);
    }

    /** Appends one dependence list, the do-while loop of the source. */
    method AppendList(packet: seq<Word>) returns (r: Result<seq<Word>>, count: nat)
      requires next <= |lines|
      modifies this
      ensures next <= |lines|
      ensures var list := CopyList(lines, old(next));
              if list.Ok? then r == Ok(packet + list.value) && next == old(next) + |list.value| && count == |list.value|
              else r == Err(EndOfFile)
    {
      ghost var list := CopyList(lines, next);
      var out, successor := packet, 1;
      count := 0;
      while successor > 0
        invariant next <= |lines| && count == |out| - |packet| && packet <= out && next == old(next) + count
        invariant successor > 0 ==>
          if list.Ok? then CopyList(lines, next).Ok? && out + CopyList(lines, next).value == packet + list.value
          else CopyList(lines, next).Err?
        invariant successor <= 0 ==> list.Ok? && out == packet + list.value
        decreases |lines| - next, successor
      {
        var line := GetLine();
        if line.Err? { return Err(EndOfFile), count; }
        successor := Signed(line.value);
        out := out + [line.value];
        count := count + 1;
      }
      r := Ok(out);
    }

    method AppendLists(packet: seq<Word>, n: nat) returns (r: Result<seq<Word>>, count: nat)
      requires next <= |lines|
      modifies this
      ensures next <= |lines|
      ensures var lists := CopyLists(lines, old(next), n);
              if lists.Ok? then r == Ok(packet + lists.value) && count == |lists.value| else r == Err(EndOfFile)
    {
      ghost var lists := CopyLists(lines, next, n);
      var out, i := packet, 0;
      count := 0;
      while i < n
        invariant i <= n && next <= |lines| && count == |out| - |packet|
        invariant if lists.Ok? then CopyLists(lines, next, n - i).Ok?
                    && out + CopyLists(lines, next, n - i).value == packet + lists.value
                  else CopyLists(lines, next, n - i).Err?
      {
        var list, len := AppendList(out);
        if list.Err? { return Err(EndOfFile), count; }
        out, count := list.value, count + len;
        i := i + 1;
      }
      assert out + [] == out;
      r := Ok(out);
    }
  }

  /** The sizes are filled in last. */
  lemma HeaderFilled(mapper: Word, injector: Word, messageLen: nat, message: seq<Word>)
    ensures ([mapper, 0, MESSAGE_DELIVERY, injector, 0, 0, 0, 0, 0, 0, 0, 0, 0] + message)
            [1 := ToWord(CONSTANT_PACKET_SIZE + messageLen - 2)][8 := ToWord(4 * messageLen)]
            == AppHeader(mapper, injector, messageLen) + message
  {
  }

  method AppDescriptorLoader(file: seq<Word>, mapping: seq<Word>, mapper: Word, injector: Word) returns (r: Result<seq<Word>>)
    ensures r == AppPacket(file, mapping, mapper, injector)
  {
    hide ToWord, CopyLists, Mapped, AppHeader;
    var taskCnt := |mapping|;
    var repository := new LineReader(file);
    var packet: seq<Word> := [mapper, 0, MESSAGE_DELIVERY, injector, 0, 0, 0, 0, 0, 0, 0, 0, 0];
    ghost var blank := packet;
    packet := packet + [NEW_APP, injector];
    var line := repository.GetLine();
    if line.Err? { return Err(EndOfFile); }
    packet := packet + [ToWord(taskCnt)];
    var mapped := repository.AppendMapping(packet, mapping);
    if mapped.Err? { return Err(EndOfFile); }
    var all, depLen := repository.AppendLists(mapped.value, taskCnt);
    if all.Err? { return Err(EndOfFile); }
    packet := all.value;
    ghost var deps := CopyLists(file, 1 + 5 * taskCnt, taskCnt).value;
    ghost var message := [NEW_APP, injector, ToWord(taskCnt)] + Mapped(mapping) + deps;
    assert packet == blank + message;
    var messageLen := taskCnt * 2 + 3 + depLen;
    packet := packet[1 := ToWord(CONSTANT_PACKET_SIZE + messageLen - 2)];
    packet := packet[8 := ToWord(4 * messageLen)];
    HeaderFilled(mapper, injector, messageLen, message);
    r := Ok(packet);
  }

  lemma {:induction false} MappedLength(mapping: seq<Word>)
    ensures |Mapped(mapping)| == 2 * |mapping|
  {
    if mapping != [] {
      MappedLength(mapping[1..]);
    }
  }

  lemma TaskHeaderIs(id: Word, addr: Word, mapperId: Word, mapperAddr: Word, d: seq<Word>)
    requires |d| == 5
    ensures TaskHeader(id, addr, mapperId, mapperAddr, d) ==
      [addr, ToWord(CodeWords(d[0], d[1]) + CONSTANT_PACKET_SIZE - 2), TASK_ALLOCATION, id, mapperAddr, 0, 0, 0,
       mapperId, d[1], d[0], d[2], d[3]]
  {
  }

  method TaskAllocationLoader(file: seq<Word>, id: Word, addr: Word, mapperId: Word, mapperAddr: Word) returns (r: Result<seq<Word>>)
    ensures r == TaskPacket(file, id, addr, mapperId, mapperAddr)
  {
    hide ToWord, CodeWords, TaskHeader;
    var taskId := id % 256;
    var repository := new LineReader(file);
    var line := repository.GetLine();
    if line.Err? { return Err(EndOfFile); }
    var taskCnt := line.value;
    if taskId >= taskCnt { return Err(TaskOutOfRange); }
    var taskLine := TASK_DESCRIPTOR_SIZE * taskId;
    line := repository.Skip(taskLine);
    if line.Err? { return Err(EndOfFile); }
    var descriptor := repository.GetDescriptor();
    if descriptor.Err? { return Err(EndOfFile); }
    var d := descriptor.value;
    var initAddr := d[4] / 4;
    var currentLine := taskLine + TASK_DESCRIPTOR_SIZE + 1;
    if currentLine < initAddr {
      line := repository.Skip(initAddr - currentLine);
      if line.Err? { return Err(EndOfFile); }
    }
    assert repository.next == CodeStart(d[4], 1 + taskLine);
    var n := CodeWords(d[0], d[1]);
    TaskHeaderIs(id, addr, mapperId, mapperAddr, d);
    var packet: seq<Word> := [addr, ToWord(n + CONSTANT_PACKET_SIZE - 2), TASK_ALLOCATION, id, mapperAddr, 0, 0, 0,
      mapperId, d[1], d[0], d[2], d[3]];
    r := repository.AppendLines(packet, n);
  }

  // ---- Round trips ----

  /** What the fields of the image need in order to fit their lines, the addresses and the
      packet sizes above all. */
  ghost predicate Fits(tasks: seq<Task>) {
    && 4 * |RepoLines(tasks)| <= 0xFFFF_FF00
    && forall t :: 0 <= t < |tasks| ==> TaskFits(tasks[t], |tasks|)
  }

  ghost predicate TaskFits(t: Task, n: nat) {
    t.data <= 4 * |t.code| && t.bss < 0x1_0000_0000 && t.entry < 0x1_0000_0000 && ListFits(t.succ, n)
  }

  ghost predicate ListFits(succ: seq<nat>, n: nat) {
    n <= 0x7FFF_FFFF && forall c :: 0 <= c < |succ| ==> succ[c] < n
  }

  lemma WordOf(v: nat)
    requires v < 0x1_0000_0000
    ensures ToWord(v) == v
  {
  }

  lemma DescriptorFits(tasks: seq<Task>, t: nat)
    requires Fits(tasks) && t < |tasks|
    ensures 0 <= TextSize(tasks[t])
    ensures Descriptor(tasks[t], 4 * CodeLine(tasks, t)) ==
              [TextSize(tasks[t]), tasks[t].data, tasks[t].bss, tasks[t].entry, 4 * CodeLine(tasks, t)]
    ensures CodeWords(TextSize(tasks[t]), tasks[t].data) == |tasks[t].code|
    ensures |tasks[t].code| <= 0x3FFF_FFC0
  {
    ImageLayout(tasks, t);
    assert |RepoLines(tasks)| >= 1 + 5 * |tasks| + |Deps(tasks)|;
    hide RepoLines, CodeLine, ToWord;
    var task := tasks[t];
    assert TaskFits(task, |tasks|);
    WordOf(TextSize(task)); WordOf(task.data); WordOf(task.bss); WordOf(task.entry); WordOf(4 * CodeLine(tasks, t));
    WordOf(4 * |task.code|);
  }

  /** For every task number that exists, the allocation packet is a 13-word header that
      declares the packet's true size and the task's sections, followed by exactly that
      task's words; any other number is refused. */
  lemma TaskRoundTrip(tasks: seq<Task>, id: Word, addr: Word, mapperId: Word, mapperAddr: Word)
    requires Fits(tasks)
    ensures var r := TaskPacket(RepoLines(tasks), id, addr, mapperId, mapperAddr); var t := id % 256;
            if t >= |tasks| then r == Err(TaskOutOfRange)
            else
              && r.Ok? && |r.value| == 13 + |tasks[t].code| && r.value[13..] == tasks[t].code
              && r.value[0] == addr && r.value[1] == |r.value| - 2 && r.value[2] == TASK_ALLOCATION && r.value[3] == id
              && r.value[8] == mapperId && r.value[9] == tasks[t].data && r.value[10] == TextSize(tasks[t])
              && r.value[11] == tasks[t].bss && r.value[12] == tasks[t].entry
  {
    var lines, t := RepoLines(tasks), id % 256;
    FirstLine(tasks);
    if t < |tasks| {
      ImageLayout(tasks, t);
      DescriptorFits(tasks, t);
      LineAfterDescriptors(tasks, t);
      WordOf(|tasks[t].code| + 11);
      hide RepoLines, CodeLine, Descriptor, CodeWords, ToWord, Fits, TaskPacket, TaskHeader;
      var at, n := CodeLine(tasks, t), |tasks[t].code|;
      var d: seq<Word> := [TextSize(tasks[t]), tasks[t].data, tasks[t].bss, tasks[t].entry, 4 * at];
      PacketIs(lines, id, addr, mapperId, mapperAddr, d, at, n);
      HeaderFields(id, addr, mapperId, mapperAddr, d);
      var header := TaskHeader(id, addr, mapperId, mapperAddr, d);
      assert (header + tasks[t].code)[13..] == tasks[t].code;
    }
  }

  lemma PacketIs(lines: seq<Word>, id: Word, addr: Word, mapperId: Word, mapperAddr: Word, d: seq<Word>, at: nat, n: nat)
    requires 0 < |lines| && id % 256 < lines[0] && |d| == 5 && 5 * (id % 256) + 6 <= at
    requires at + n <= |lines| && lines[5 * (id % 256) + 1..5 * (id % 256) + 6] == d
    requires d[4] == 4 * at && CodeWords(d[0], d[1]) == n
    ensures TaskPacket(lines, id, addr, mapperId, mapperAddr) == Ok(TaskHeader(id, addr, mapperId, mapperAddr, d) + lines[at..at + n])
  {
    hide CodeWords, TaskHeader;
    assert d[4] / 4 == at;
    assert CodeStart(d[4], 5 * (id % 256) + 1) == at;
  }

  lemma HeaderFields(id: Word, addr: Word, mapperId: Word, mapperAddr: Word, d: seq<Word>)
    requires |d| == 5
    ensures var h := TaskHeader(id, addr, mapperId, mapperAddr, d);
            && |h| == 13 && h[0] == addr && h[1] == ToWord(CodeWords(d[0], d[1]) + 11) && h[2] == TASK_ALLOCATION
            && h[3] == id && h[8] == mapperId && h[9] == d[1] && h[10] == d[0] && h[11] == d[2] && h[12] == d[3]
  {
    hide ToWord, CodeWords;
  }

  lemma FirstLine(tasks: seq<Task>)
    requires Fits(tasks)
    ensures |RepoLines(tasks)| >= 1 + 5 * |tasks| && RepoLines(tasks)[0] == |tasks|
  {
    WordOf(|tasks|);
  }

  lemma LineAfterDescriptors(tasks: seq<Task>, t: nat)
    requires t < |tasks|
    ensures CodeLine(tasks, t) >= 5 * t + 6
  {
  }

  /** Only the last word of a list is not positive. */
  lemma DepWordSigned(succ: seq<nat>, c: nat)
    requires c < |succ| && succ[c] < 0x7FFF_FFFF
    ensures Signed(DepWord(succ, c)) == if c == |succ| - 1 then -(succ[c] as int + 1) else succ[c] + 1
  {
  }

  /** A list is copied whole, whatever follows it. */
  lemma {:induction false} ListIsCopied(succ: seq<nat>, lines: seq<Word>, p: nat, from: nat)
    requires forall c :: 0 <= c < |succ| ==> succ[c] < 0x7FFF_FFFF
    requires from < |DepWords(succ)| && p + |DepWords(succ)| - from <= |lines|
    requires forall c :: from <= c < |DepWords(succ)| ==> lines[p + (c - from)] == DepWords(succ)[c]
    ensures CopyList(lines, p) == Ok(DepWords(succ)[from..])
    decreases |DepWords(succ)| - from
  {
    var words := DepWords(succ);
    assert lines[p] == words[from];
    hide Signed, DepWord;
    if succ == [] {
      assert Signed(0) == 0 by { SignedZero(); }
    } else {
      DepWordSigned(succ, from);
      if from < |succ| - 1 {
        ListIsCopied(succ, lines, p + 1, from + 1);
        assert words[from..] == [words[from]] + words[from + 1..];
      } else {
        assert words[from..] == [words[from]];
      }
    }
  }

  lemma SignedZero()
    ensures Signed(0) == 0
  {
  }

  predicate Holds(lines: seq<Word>, p: nat, words: seq<Word>) {
    p + |words| <= |lines| && forall i :: 0 <= i < |words| ==> lines[p + i] == words[i]
  }

  lemma HoldsParts(lines: seq<Word>, p: nat, first: seq<Word>, rest: seq<Word>)
    requires Holds(lines, p, first + rest)
    ensures Holds(lines, p, first) && Holds(lines, p + |first|, rest)
  {
    var all := first + rest;
    forall i | 0 <= i < |first|
      ensures lines[p + i] == first[i]
    {
      assert all[i] == first[i];
    }
    forall i | 0 <= i < |rest|
      ensures lines[p + |first| + i] == rest[i]
    {
      assert all[|first| + i] == rest[i];
    }
  }

  lemma WholeListIsCopied(succ: seq<nat>, n: nat, lines: seq<Word>, p: nat)
    requires ListFits(succ, n) && Holds(lines, p, DepWords(succ))
    ensures CopyList(lines, p) == Ok(DepWords(succ))
  {
    hide CopyList;
    ListIsCopied(succ, lines, p, 0);
    assert DepWords(succ)[0..] == DepWords(succ);
  }

  lemma {:induction false} ListsAreCopied(tasks: seq<Task>, n: nat, lines: seq<Word>, p: nat)
    requires forall t :: 0 <= t < |tasks| ==> ListFits(tasks[t].succ, n)
    requires Holds(lines, p, Deps(tasks))
    ensures CopyLists(lines, p, |tasks|) == Ok(Deps(tasks))
  {
    hide DepWords, CopyList, Holds, ListFits;
    if tasks != [] {
      var first := DepWords(tasks[0].succ);
      HoldsParts(lines, p, first, Deps(tasks[1..]));
      WholeListIsCopied(tasks[0].succ, n, lines, p);
      ListsAreCopied(tasks[1..], n, lines, p + |first|);
    }
  }

  /** The descriptor packet declares its own true size and message length, names the tasks
      and their addresses, and ends with the dependence lists exactly as they were printed. */
  lemma AppRoundTrip(tasks: seq<Task>, mapping: seq<Word>, mapper: Word, injector: Word)
    requires Fits(tasks) && |mapping| == |tasks|
    ensures var r := AppPacket(RepoLines(tasks), mapping, mapper, injector);
            && r.Ok? && |r.value| == 16 + 2 * |tasks| + |Deps(tasks)|
            && r.value[1] == |r.value| - 2 && r.value[8] == 4 * (|r.value| - 13)
            && r.value[13..] == [NEW_APP, injector, |tasks|] + Mapped(mapping) + Deps(tasks)
  {
    hide RepoLines, Mapped, Deps, AppPacket, CopyLists, Fits;
    ImageDepsAreCopied(tasks);
    AppPacketIs(RepoLines(tasks), mapping, mapper, injector, Deps(tasks));
  }

  lemma ImageDepsAreCopied(tasks: seq<Task>)
    requires Fits(tasks)
    ensures 1 + 5 * |tasks| + |Deps(tasks)| <= |RepoLines(tasks)| <= 0x3FFF_FFC0
    ensures CopyLists(RepoLines(tasks), 1 + 5 * |tasks|, |tasks|) == Ok(Deps(tasks))
  {
    DepsInImage(tasks);
    forall t | 0 <= t < |tasks|
      ensures ListFits(tasks[t].succ, |tasks|)
    {
      assert TaskFits(tasks[t], |tasks|);
    }
    hide RepoLines, Deps, CopyLists, Fits, ListFits;
    ListsAreCopied(tasks, |tasks|, RepoLines(tasks), 1 + 5 * |tasks|);
  }

  lemma AppPacketIs(lines: seq<Word>, mapping: seq<Word>, mapper: Word, injector: Word, deps: seq<Word>)
    requires 1 + 5 * |mapping| + |deps| <= |lines| <= 0x3FFF_FFC0
    requires CopyLists(lines, 1 + 5 * |mapping|, |mapping|) == Ok(deps)
    ensures var r := AppPacket(lines, mapping, mapper, injector);
            && r.Ok? && |r.value| == 16 + 2 * |mapping| + |deps|
            && r.value[1] == |r.value| - 2 && r.value[8] == 4 * (|r.value| - 13)
            && r.value[13..] == [NEW_APP, injector, |mapping|] + Mapped(mapping) + deps
  {
    hide CopyLists, Mapped, ToWord, AppHeader;
    MappedLength(mapping);
    var n := |mapping| * 2 + 3 + |deps|;
    WordOf(|mapping|); WordOf(CONSTANT_PACKET_SIZE + n - 2); WordOf(4 * n);
    AppHeaderFields(mapper, injector, n);
    var message: seq<Word> := [NEW_APP, injector, ToWord(|mapping|)] + Mapped(mapping) + deps;
    assert AppPacket(lines, mapping, mapper, injector) == Ok(AppHeader(mapper, injector, n) + message);
    assert (AppHeader(mapper, injector, n) + message)[13..] == message;
  }

  lemma AppHeaderFields(mapper: Word, injector: Word, n: nat)
    ensures var h := AppHeader(mapper, injector, n);
            |h| == 13 && h[1] == ToWord(CONSTANT_PACKET_SIZE + n - 2) && h[8] == ToWord(4 * n)
  {
    hide ToWord;
  }

  lemma DepsInImage(tasks: seq<Task>)
    requires Fits(tasks)
    ensures var lines, p := RepoLines(tasks), 1 + 5 * |tasks|;
            |lines| <= 0x3FFF_FFC0 && Holds(lines, p, Deps(tasks))
  {
    hide Deps, Codes, Descriptors;
    var front := [ToWord(|tasks|)] + Descriptors(tasks, CodeBase(tasks));
    assert |front| == 1 + 5 * |tasks|;
    assert RepoLines(tasks) == front + Deps(tasks) + Codes(tasks);
  }
}
