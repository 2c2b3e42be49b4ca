/** The repository image of an application: what the builder prints, one 32-bit word a line,
    and where every part of it lies. */
module RepoImage {
  type Word = w: nat | w < 0x1_0000_0000

  /** A compiled task: the lines of its text file, its section sizes in bytes, its entry
      point, and the positions of its successors, in ascending order. */
  datatype Task = Task(code: seq<Word>, data: nat, bss: nat, entry: nat, succ: seq<nat>)

  /** The low 32 bits, also of a negative number. */
  function ToWord(v: int): Word { v % 0x1_0000_0000 }

  /** The text file holds text and data together. */
  function TextSize(t: Task): int { 4 * |t.code| - t.data }

  function Descriptor(t: Task, address: nat): (d: seq<Word>)
    ensures |d| == 5
  {
    [ToWord(TextSize(t)), ToWord(t.data), ToWord(t.bss), ToWord(t.entry), ToWord(address)]
  }

  function Descriptors(tasks: seq<Task>, address: nat): (d: seq<Word>)
    ensures |d| == 5 * |tasks|
    decreases |tasks|
  {
    if tasks == [] then []
    else Descriptor(tasks[0], address) + Descriptors(tasks[1..], address + 4 * |tasks[0].code|)
  }

  /** Positions count from 1 and the last one is negated. */
  function DepWord(succ: seq<nat>, c: nat): Word
    requires c < |succ|
  {
    var s: int := succ[c] + 1;
    ToWord(if c == |succ| - 1 then -s else s)
  }

  /** A single 0 stands for no successor. */
  function DepWords(succ: seq<nat>): (d: seq<Word>)
    ensures |d| == if succ == [] then 1 else |succ|
  {
    if succ == [] then [0] else seq<Word>(|succ|, c requires 0 <= c < |succ| => DepWord(succ, c))
  }

  function Deps(tasks: seq<Task>): seq<Word> {
    if tasks == [] then [] else DepWords(tasks[0].succ) + Deps(tasks[1..])
  }

  function Codes(tasks: seq<Task>): seq<Word> {
    if tasks == [] then [] else tasks[0].code + Codes(tasks[1..])
  }

  /** The byte address of the first task's code. */
  function CodeBase(tasks: seq<Task>): nat {
    4 + 5 * |tasks| * 4 + |Deps(tasks)| * 4
  }

  function RepoLines(tasks: seq<Task>): seq<Word> {
    [ToWord(|tasks|)] + Descriptors(tasks, CodeBase(tasks)) + Deps(tasks) + Codes(tasks)
  }

  // ---- The builder ----

  class Repository {
    var lines: seq<Word>
    var addr: nat

    constructor ()
      ensures lines == [] && addr == 0
    {
      lines, addr := [], 0;
    }

    method Add(value: int)
      modifies this
      ensures lines == old(lines) + [ToWord(value)] && addr == old(addr) + 4
    {
      lines, addr := lines + [ToWord(value)], addr + 4;
    }

    method AddDescriptors(tasks: seq<Task>, base: nat)
      modifies this
      ensures lines == old(lines) + Descriptors(tasks, base) && addr == old(addr) + 20 * |tasks|
    {
      ghost var start := lines;
      var address, i := base, 0;
      assert tasks[0..] == tasks;
      while i < |tasks|
        invariant i <= |tasks| && addr == old(addr) + 20 * i && address >= 0
        invariant lines + Descriptors(tasks[i..], address) == start + Descriptors(tasks, base)
      {
        var t := tasks[i];
        ghost var before := lines;
        Add(TextSize(t));
        Add(t.data);
        Add(t.bss);
        Add(t.entry);
        Add(address);
        assert lines == before + Descriptor(t, address);
        assert tasks[i..][1..] == tasks[i + 1..];
        address := address + TextSize(t) + t.data;
        i := i + 1;
      }
    }

    method AddDepList(succ: seq<nat>)
      modifies this
      ensures lines == old(lines) + DepWords(succ) && addr == old(addr) + 4 * |DepWords(succ)|
    {
      var c := 0;
      while c < |succ|
        invariant c <= |succ| && addr == old(addr) + 4 * c
        invariant lines == old(lines) + DepWords(succ)[..c]
      {
        var successor: int := succ[c] + 1;
        if c == |succ| - 1 {
          successor := successor * -1;
        }
        Add(successor);
        assert DepWords(succ)[..c + 1] == DepWords(succ)[..c] + [DepWord(succ, c)];
        c := c + 1;
      }
      if |succ| == 0 {
        Add(0);
        assert ToWord(0) == 0;
      } else {
        assert DepWords(succ)[..c] == DepWords(succ);
      }
    }

    method AddDeps(tasks: seq<Task>)
      modifies this
      ensures lines == old(lines) + Deps(tasks) && addr == old(addr) + 4 * |Deps(tasks)|
    {
      hide DepWords;
      var t := 0;
      assert tasks[0..] == tasks;
      while t < |tasks|
        invariant t <= |tasks|
        invariant lines + Deps(tasks[t..]) == old(lines) + Deps(tasks)
        invariant addr == old(addr) + 4 * (|lines| - |old(lines)|)
      {
        AddDepList(tasks[t].succ);
        assert tasks[t..][1..] == tasks[t + 1..];
        t := t + 1;
      }
    }

    method AddCode(code: seq<Word>)
      modifies this
      ensures lines == old(lines) + code && addr == old(addr) + 4 * |code|
    {
      var k := 0;
      while k < |code|
        invariant k <= |code| && lines == old(lines) + code[..k] && addr == old(addr) + 4 * k
      {
        Add(code[k]);
        assert code[..k + 1] == code[..k] + [code[k]];
        k := k + 1;
      }
      assert code[..k] == code;
    }

    method AddCodes(tasks: seq<Task>)
      modifies this
      ensures lines == old(lines) + Codes(tasks) && addr == old(addr) + 4 * |Codes(tasks)|
    {
      var t := 0;
      assert tasks[0..] == tasks;
      while t < |tasks|
        invariant t <= |tasks|
        invariant lines + Codes(tasks[t..]) == old(lines) + Codes(tasks)
        invariant addr == old(addr) + 4 * (|lines| - |old(lines)|)
      {
        AddCode(tasks[t].code);
        assert tasks[t..][1..] == tasks[t + 1..];
        t := t + 1;
      }
    }
  }

  /** The length of the dependence list: one line for a task without successors. */
  method GetDepListLen(tasks: seq<Task>) returns (len: nat)
    ensures len == |Deps(tasks)|
  {
    len := 0;
    var t := 0;
    assert tasks[0..] == tasks;
    while t < |tasks|
      invariant t <= |tasks| && len + |Deps(tasks[t..])| == |Deps(tasks)|
    {
      len := len + |tasks[t].succ|;
      if |tasks[t].succ| == 0 {
        len := len + 1;
      }
      assert tasks[t..][1..] == tasks[t + 1..];
      t := t + 1;
    }
  }

  method GenerateRepo(tasks: seq<Task>) returns (repo: Repository)
    ensures fresh(repo) && repo.lines == RepoLines(tasks) && repo.addr == 4 * |repo.lines|
  {
    hide Deps, Codes, Descriptors;
    repo := new Repository();
    repo.Add(|tasks|);
    var depLen := GetDepListLen(tasks);
    var address := 4 + 5 * |tasks| * 4 + depLen * 4;
    repo.AddDescriptors(tasks, address);
    repo.AddDeps(tasks);
    repo.AddCodes(tasks);
  }

  // ---- Where things are ----

  /** The words of code in front of task t's. */
  function Offset(tasks: seq<Task>, t: nat): nat
    requires t <= |tasks|
    decreases t
  {
    if t == 0 then 0 else |tasks[0].code| + Offset(tasks[1..], t - 1)
  }

  lemma Tail(front: seq<Word>, rest: seq<Word>, i: nat, len: nat)
    requires i + len <= |rest|
    ensures (front + rest)[|front| + i..|front| + i + len] == rest[i..i + len]
  {
  }

  lemma {:induction false} DescriptorAt(tasks: seq<Task>, base: nat, t: nat)
    requires t < |tasks|
    ensures Descriptors(tasks, base)[5 * t..5 * t + 5] == Descriptor(tasks[t], base + 4 * Offset(tasks, t))
    decreases t
  {
    var next := base + 4 * |tasks[0].code|;
    var first, rest := Descriptor(tasks[0], base), Descriptors(tasks[1..], next);
    assert Descriptors(tasks, base) == first + rest;
    hide Descriptors;
    if t == 0 {
      assert (first + rest)[..5] == first;
    } else {
      DescriptorAt(tasks[1..], next, t - 1);
      Tail(first, rest, 5 * (t - 1), 5);
    }
  }

  lemma {:induction false} CodeAt(tasks: seq<Task>, t: nat)
    requires t < |tasks|
    ensures var at := Offset(tasks, t);
            at + |tasks[t].code| <= |Codes(tasks)| && Codes(tasks)[at..at + |tasks[t].code|] == tasks[t].code
    decreases t
  {
    var first, rest := tasks[0].code, Codes(tasks[1..]);
    if t == 0 {
      assert (first + rest)[..|first|] == first;
    } else {
      CodeAt(tasks[1..], t - 1);
      Tail(first, rest, Offset(tasks[1..], t - 1), |tasks[t].code|);
    }
  }

  /** The line of task t's first word; the address printed in its descriptor is four times
      that. */
  function CodeLine(tasks: seq<Task>, t: nat): nat
    requires t <= |tasks|
  {
    1 + 5 * |tasks| + |Deps(tasks)| + Offset(tasks, t)
  }

  /** Every part of the image is where the sizes and addresses say. */
  lemma ImageLayout(tasks: seq<Task>, t: nat)
    requires t < |tasks|
    ensures var lines, at := RepoLines(tasks), CodeLine(tasks, t);
            && at + |tasks[t].code| <= |lines|
            && lines[0] == ToWord(|tasks|)
            && lines[5 * t + 1..5 * t + 6] == Descriptor(tasks[t], 4 * at)
            && lines[at..at + |tasks[t].code|] == tasks[t].code
  {
    hide Codes, Deps, Descriptors, Descriptor;
    CodeAt(tasks, t);
    DescriptorAt(tasks, CodeBase(tasks), t);
    var head, descriptors := [ToWord(|tasks|)], Descriptors(tasks, CodeBase(tasks));
    var front := head + descriptors + Deps(tasks);
    Tail(front, Codes(tasks), Offset(tasks, t), |tasks[t].code|);
    Tail(head, descriptors, 5 * t, 5);
    assert front[5 * t + 1..5 * t + 6] == (head + descriptors)[5 * t + 1..5 * t + 6];
    assert RepoLines(tasks)[5 * t + 1..5 * t + 6] == front[5 * t + 1..5 * t + 6];
  }
}
