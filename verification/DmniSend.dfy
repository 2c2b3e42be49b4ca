/** What the DMA engine puts on the network: under every schedule of credits and arbiter
    preemptions the accepted flits are the words of the two segments, in order, once each. */
module DmniSend {
  import opened Dmni

  /** A cycle of the engine at work, and the flits the network has accepted so far. */
  datatype World = World(d: Regs, inp: Inputs, sent: seq<nat>)

  /** Two segments of memory words to be sent. */
  datatype Job = Job(address: nat, size: nat, address2: nat, size2: nat)

  predicate JobOk(j: Job) { j.address < WORD && j.size < WORD && j.address2 < WORD && j.size2 < WORD }

  /** The `n` memory words from byte address `base` on. */
  function Words(ram: nat -> nat, base: nat, n: nat): (s: seq<nat>)
    ensures |s| == n
    ensures forall i :: 0 <= i < n ==> s[i] == ram(Plus(base, WORD_SIZE * i))
  {
    seq<nat>(n, i requires 0 <= i < n => ram(Plus(base, WORD_SIZE * i)))
  }

  function Stream(ram: nat -> nat, j: Job): seq<nat> {
    Words(ram, j.address, j.size) + Words(ram, SecondStart(j.address2), j.size2)
  }

  /** A flit is accepted in a cycle in which both sides agree. */
  predicate Accepts(w: World) { w.d.snd.tx && w.inp.credit }

  /** The next cycle. Memory answers a read of this cycle in the next one. The credit comes and
      goes as it likes. */
  ghost predicate Cycle(ram: nat -> nat, w: World, w': World) {
    && Shape(w.d)
    && w'.d == Step(w.d, w.inp)
    && w'.sent == (if Accepts(w) then w.sent + [w.d.snd.data] else w.sent)
    && (MemUse(w.d).Read? ==> w'.inp.memData == ram(MemUse(w.d).address))
  }

  /** The credit is missing while the sender copies and has no flit on the wires: the only
      case it is not made for. */
  predicate Early(w: World) { w.d.snd.state == COPY_FROM_MEM && !w.d.snd.tx && !w.inp.credit }

  ghost predicate Next(ram: nat -> nat, w: World, w': World) { Cycle(ram, w, w') && !Early(w') }

  /** The cycle in which the processor starts job `j`. */
  ghost predicate Starts(w: World, j: Job) {
    && DmniInv(w.d) && JobOk(j) && w.sent == []
    && w.d.snd.state == WAIT && w.inp.start && !w.inp.receives
    && w.inp.address == j.address && w.inp.size == j.size && w.inp.address2 == j.address2 && w.inp.size2 == j.size2
  }

  /** Progress within one segment of `n` words from `base`, `done` words having been sent
      before it. `next` is the word to be presented next; while a flit is on the wires it
      is the word before that, not yet counted as sent. */
  ghost predicate InSegment(ram: nat -> nat, w: World, base: nat, n: nat, done: seq<nat>, next: nat) {
    var s := w.d.snd;
    && next <= n && s.size == n - next
    && if s.state == LOAD then
         && s.address == Plus(base, WORD_SIZE * next)
         && w.sent == done + Words(ram, base, n)[..next]
       else
         && s.state == COPY_FROM_MEM
         && s.address == Plus(base, WORD_SIZE * (next + 1))
         && w.inp.memData == ram(Plus(base, WORD_SIZE * next))
         && if s.tx then
              && 0 < next && s.data == ram(Plus(base, WORD_SIZE * (next - 1)))
              && w.sent == done + Words(ram, base, n)[..next - 1]
            else
              w.inp.credit && w.sent == done + Words(ram, base, n)[..next]
  }

  ghost predicate SendInv(ram: nat -> nat, w: World, j: Job) {
    && DmniInv(w.d) && JobOk(j)
    && (w.d.snd.state in {LOAD, COPY_FROM_MEM} ==>
          || (w.d.snd.size2 == j.size2 && w.d.snd.address2 == j.address2
              && exists next: nat :: InSegment(ram, w, j.address, j.size, [], next))
          || (w.d.snd.size2 == 0
              && exists next: nat :: InSegment(ram, w, SecondStart(j.address2), j.size2, Words(ram, j.address, j.size), next)))
    && (w.d.snd.state == END ==> w.sent == Stream(ram, j))
  }

  /** Stepping an address forth and back. */
  lemma AddressSteps(base: nat, i: nat)
    ensures Plus(Plus(base, WORD_SIZE * i), WORD_SIZE) == Plus(base, WORD_SIZE * (i + 1))
    ensures Minus(Plus(base, WORD_SIZE * (i + 1)), WORD_SIZE) == Plus(base, WORD_SIZE * i)
    ensures 0 < i ==> Minus(Plus(base, WORD_SIZE * (i + 1)), WORD_SIZE + WORD_SIZE) == Plus(base, WORD_SIZE * (i - 1))
  {
  }

  /** Within a segment every cycle keeps the account: a presented word is counted when it is
      accepted, a refused one is stepped back over, and a preempted read is repeated. */
  lemma SegmentStep(ram: nat -> nat, w: World, w': World, base: nat, n: nat, done: seq<nat>, next: nat)
    requires DmniInv(w.d) && Next(ram, w, w') && n < WORD && w.d.snd.state in {LOAD, COPY_FROM_MEM}
    requires InSegment(ram, w, base, n, done, next)
    ensures w'.d.snd.state in {LOAD, COPY_FROM_MEM} && (w.d.snd.state == LOAD || w.d.snd.size > 0 || !(w.inp.credit && w.d.arb.readEnable)) ==>
              w'.d.snd.size2 == w.d.snd.size2 && w'.d.snd.address2 == w.d.snd.address2
              && exists next': nat :: InSegment(ram, w', base, n, done, next')
    ensures w'.d.snd.state == END || (w.d.snd.state == COPY_FROM_MEM && w.d.snd.size == 0 && w.inp.credit && w.d.arb.readEnable) ==>
              w'.sent == done + Words(ram, base, n)
  {
    var s, s' := w.d.snd, w'.d.snd;
    AddressSteps(base, next);
    var all := Words(ram, base, n);
    if s.state == LOAD {
      assert InSegment(ram, w', base, n, done, next);
    } else {
      if s.tx { assert all[..next] == all[..next - 1] + [s.data]; }
      assert Accepts(w) || !s.tx ==> w'.sent == done + all[..next];
      if w.inp.credit && w.d.arb.readEnable {
        if s.size > 0 {
          AddressSteps(base, next + 1);
          assert InSegment(ram, w', base, n, done, next + 1);
        } else {
          assert all[..next] == all;
        }
      } else if !w.inp.credit {
        assert InSegment(ram, w', base, n, done, next - 1);
      } else {
        assert InSegment(ram, w', base, n, done, next);
      }
    }
  }

  lemma StartEstablishes(ram: nat -> nat, w: World, w': World, j: Job)
    requires Starts(w, j) && Next(ram, w, w')
    ensures SendInv(ram, w', j)
  {
    assert InSegment(ram, w', j.address, j.size, [], 0);
  }

  /** The last word of the first segment is accepted: on to the second one, or the end. */
  lemma FirstSegmentEnds(ram: nat -> nat, w: World, w': World, j: Job, next: nat)
    requires SendInv(ram, w, j) && Next(ram, w, w')
    requires w.d.snd.state == COPY_FROM_MEM && w.d.snd.size == 0 && w.inp.credit && w.d.arb.readEnable
    requires w.d.snd.size2 == j.size2 && w.d.snd.address2 == j.address2
    requires InSegment(ram, w, j.address, j.size, [], next)
    ensures SendInv(ram, w', j)
  {
    KeepsDmniInv(w.d, w.inp);
    var first := Words(ram, j.address, j.size);
    var second := SecondStart(j.address2);
    SegmentStep(ram, w, w', j.address, j.size, [], next);
    assert [] + first == first;
    if j.size2 > 0 {
      assert Plus(second, WORD_SIZE * 0) == second;
      assert first + Words(ram, second, j.size2)[..0] == first;
      assert InSegment(ram, w', second, j.size2, first, 0);
    } else {
      assert first + Words(ram, second, j.size2) == first;
    }
  }

  lemma SecondSegmentEnds(ram: nat -> nat, w: World, w': World, j: Job, next: nat)
    requires SendInv(ram, w, j) && Next(ram, w, w')
    requires w.d.snd.state == COPY_FROM_MEM && w.d.snd.size == 0 && w.inp.credit && w.d.arb.readEnable
    requires w.d.snd.size2 == 0
    requires InSegment(ram, w, SecondStart(j.address2), j.size2, Words(ram, j.address, j.size), next)
    ensures SendInv(ram, w', j)
  {
    KeepsDmniInv(w.d, w.inp);
    SegmentStep(ram, w, w', SecondStart(j.address2), j.size2, Words(ram, j.address, j.size), next);
  }

  lemma SegmentEnds(ram: nat -> nat, w: World, w': World, j: Job)
    requires SendInv(ram, w, j) && Next(ram, w, w')
    requires w.d.snd.state == COPY_FROM_MEM && w.d.snd.size == 0 && w.inp.credit && w.d.arb.readEnable
    ensures SendInv(ram, w', j)
  {
    hide InSegment, Next, Words, DmniInv;
    if w.d.snd.size2 == j.size2 && w.d.snd.address2 == j.address2
       && exists next: nat :: InSegment(ram, w, j.address, j.size, [], next) {
      var next: nat :| InSegment(ram, w, j.address, j.size, [], next);
      FirstSegmentEnds(ram, w, w', j, next);
    } else {
      var next: nat :| InSegment(ram, w, SecondStart(j.address2), j.size2, Words(ram, j.address, j.size), next);
      SecondSegmentEnds(ram, w, w', j, next);
    }
  }

  lemma KeepsSendInv(ram: nat -> nat, w: World, w': World, j: Job)
    requires SendInv(ram, w, j) && Next(ram, w, w') && w'.d.snd.state != WAIT && w.d.snd.state in {LOAD, COPY_FROM_MEM}
    ensures SendInv(ram, w', j)
  {
    KeepsDmniInv(w.d, w.inp);
    if w.d.snd.state == COPY_FROM_MEM && w.d.snd.size == 0 && w.inp.credit && w.d.arb.readEnable {
      SegmentEnds(ram, w, w', j);
    } else if w.d.snd.size2 == j.size2 && w.d.snd.address2 == j.address2
              && exists next: nat :: InSegment(ram, w, j.address, j.size, [], next) {
      var next: nat :| InSegment(ram, w, j.address, j.size, [], next);
      SegmentStep(ram, w, w', j.address, j.size, [], next);
    } else {
      var first := Words(ram, j.address, j.size);
      var next: nat :| InSegment(ram, w, SecondStart(j.address2), j.size2, first, next);
      SegmentStep(ram, w, w', SecondStart(j.address2), j.size2, first, next);
    }
  }

  /** A run of one job: it starts in cycle 0 and has not returned to WAIT since. */
  ghost predicate IsSendRun(ram: nat -> nat, ws: seq<World>, j: Job) {
    && 0 < |ws| && Starts(ws[0], j)
    && (forall t :: 0 <= t < |ws| - 1 ==> Next(ram, ws[t], ws[t + 1]))
    && (forall t :: 1 <= t < |ws| ==> ws[t].d.snd.state != WAIT)
  }

  lemma {:induction false} RunKeepsSendInv(ram: nat -> nat, ws: seq<World>, j: Job, t: nat)
    requires IsSendRun(ram, ws, j) && 1 <= t < |ws|
    ensures SendInv(ram, ws[t], j)
    ensures t < |ws| - 1 ==> ws[t].d.snd.state in {LOAD, COPY_FROM_MEM}
  {
    hide SendInv, InSegment, Words, Stream;
    assert Next(ram, ws[t - 1], ws[t]);
    if t == 1 {
      StartEstablishes(ram, ws[0], ws[1], j);
    } else {
      RunKeepsSendInv(ram, ws, j, t - 1);
      KeepsSendInv(ram, ws[t - 1], ws[t], j);
    }
    assert DmniInv(ws[t].d) by { InvHasRegs(ram, ws[t], j); }
    if t < |ws| - 1 {
      assert Next(ram, ws[t], ws[t + 1]) && ws[t + 1].d.snd.state != WAIT;
    }
  }

  lemma InvHasRegs(ram: nat -> nat, w: World, j: Job)
    requires SendInv(ram, w, j)
    ensures DmniInv(w.d)
  {
  }

  /** Exact send stream. At any time what the network has accepted is a prefix of the
      `size` words at `address` followed by the `size_2` words of the second segment, and
      when the sender reaches END it is all of them. */
  lemma SendsExactStream(ram: nat -> nat, ws: seq<World>, j: Job, t: nat)
    requires IsSendRun(ram, ws, j) && 1 <= t < |ws|
    ensures ws[t].sent <= Stream(ram, j)
    ensures ws[t].d.snd.state == END ==> ws[t].sent == Stream(ram, j)
  {
    RunKeepsSendInv(ram, ws, j, t);
    var w := ws[t];
    if w.d.snd.state != END {
      var first, second := Words(ram, j.address, j.size), SecondStart(j.address2);
      if exists next: nat :: InSegment(ram, w, j.address, j.size, [], next) {
        var next: nat :| InSegment(ram, w, j.address, j.size, [], next);
        assert w.sent <= [] + first;
      } else {
        var next: nat :| InSegment(ram, w, second, j.size2, first, next);
        assert w.sent <= first + Words(ram, second, j.size2);
      }
    }
  }

  /** The second segment is the promised one for every memory exactly when `address_2` has
      zero bits 30..28 or the segment is empty; otherwise it starts one word early. */
  lemma SecondSegmentExact(j: Job)
    requires JobOk(j)
    ensures (forall ram: nat -> nat :: Stream(ram, j) == Words(ram, j.address, j.size) + Words(ram, j.address2, j.size2))
        <==> (j.size2 == 0 || (j.address2 / 0x1000_0000) % 8 == 0)
  {
    if j.size2 > 0 && (j.address2 / 0x1000_0000) % 8 != 0 {
      var ram: nat -> nat := a => a;
      var k := j.size;
      var s := Words(ram, j.address, j.size) + Words(ram, j.address2, j.size2);
      assert s[k] == Plus(j.address2, 0);
      assert Stream(ram, j)[k] == Plus(SecondStart(j.address2), 0);
    }
  }

  // ---- Exactly when the stream is exact ----

  /** A run of one job under any credits at all. */
  ghost predicate IsAnyRun(ram: nat -> nat, ws: seq<World>, j: Job) {
    && 0 < |ws| && Starts(ws[0], j)
    && (forall t :: 0 <= t < |ws| - 1 ==> Cycle(ram, ws[t], ws[t + 1]))
    && (forall t :: 1 <= t < |ws| ==> ws[t].d.snd.state != WAIT)
  }

  /** The early losses of credit in cycles 0 .. t - 1. */
  function EarlyUntil(ws: seq<World>, t: nat): (n: nat)
    requires t <= |ws|
  {
    if t == 0 then 0 else EarlyUntil(ws, t - 1) + if Early(ws[t - 1]) then 1 else 0
  }

  lemma {:induction false} NoneEarly(ws: seq<World>, t: nat)
    requires t <= |ws|
    ensures EarlyUntil(ws, t) == 0 <==> forall u :: 0 <= u < t ==> !Early(ws[u])
  {
    if t > 0 { NoneEarly(ws, t - 1); }
  }

  /** What the network has, what is on the wires and what is still to be read. */
  function Total(w: World): nat { |w.sent| + (if w.d.snd.tx then 1 else 0) + w.d.snd.size + w.d.snd.size2 }

  predicate SizesOk(w: World) { w.d.snd.size < WORD && w.d.snd.size2 < WORD }

  /** The total grows by one word with every early loss, and not otherwise. */
  lemma TotalStep(ram: nat -> nat, w: World, w': World)
    requires DmniInv(w.d) && SizesOk(w) && Cycle(ram, w, w') && w.d.snd.state in {LOAD, COPY_FROM_MEM}
    ensures SizesOk(w') && DmniInv(w'.d)
    ensures Total(w') % WORD == (Total(w) + if Early(w) then 1 else 0) % WORD
    ensures w'.d.snd.state == END ==> Total(w') == |w'.sent|
  {
    KeepsDmniInv(w.d, w.inp);
    hide DmniInv, RecvStep, ArbStep;
    if w.d.snd.state == COPY_FROM_MEM && !w.inp.credit && w.d.snd.size == WORD - 1 {
      assert w'.d.snd.size == 0;
    }
  }

  lemma FirstTotal(ram: nat -> nat, w: World, w': World, j: Job)
    requires Starts(w, j) && Cycle(ram, w, w')
    ensures DmniInv(w'.d) && SizesOk(w') && Total(w') == j.size + j.size2 && w'.d.snd.state == LOAD && !Early(w)
  {
    KeepsDmniInv(w.d, w.inp);
    hide RecvStep, ArbStep;
  }

  lemma NotYetOver(ram: nat -> nat, w: World, w': World)
    requires DmniInv(w.d) && Cycle(ram, w, w') && w.d.snd.state != WAIT && w'.d.snd.state != WAIT
    ensures w.d.snd.state in {LOAD, COPY_FROM_MEM}
  {
    hide RecvStep, ArbStep;
  }

  lemma {:induction false} TotalIs(ram: nat -> nat, ws: seq<World>, j: Job, t: nat)
    requires IsAnyRun(ram, ws, j) && 1 <= t < |ws|
    ensures DmniInv(ws[t].d) && SizesOk(ws[t])
    ensures Total(ws[t]) % WORD == (j.size + j.size2 + EarlyUntil(ws, t)) % WORD
    ensures ws[t].d.snd.state == END ==> Total(ws[t]) == |ws[t].sent|
    ensures t < |ws| - 1 ==> ws[t].d.snd.state in {LOAD, COPY_FROM_MEM}
  {
    hide Cycle, Starts, DmniInv, Total, Early, SizesOk;
    assert Cycle(ram, ws[t - 1], ws[t]);
    if t == 1 {
      FirstTotal(ram, ws[0], ws[1], j);
    } else {
      TotalIs(ram, ws, j, t - 1);
      TotalStep(ram, ws[t - 1], ws[t]);
      ModAdds(Total(ws[t - 1]), j.size + j.size2 + EarlyUntil(ws, t - 1), if Early(ws[t - 1]) then 1 else 0);
    }
    if t < |ws| - 1 {
      assert Cycle(ram, ws[t], ws[t + 1]);
      NotYetOver(ram, ws[t], ws[t + 1]);
    }
  }

  lemma NoneEarlyIsSendRun(ram: nat -> nat, ws: seq<World>, j: Job, t: nat)
    requires IsAnyRun(ram, ws, j) && 1 <= t < |ws| && ws[t].d.snd.state == END && EarlyUntil(ws, t) == 0
    ensures IsSendRun(ram, ws[..t + 1], j)
  {
    NoneEarly(ws, t);
    hide Cycle, Starts, EarlyUntil;
    var run := ws[..t + 1];
    forall u | 0 <= u < |run| - 1
      ensures Next(ram, run[u], run[u + 1])
    {
      assert run[u] == ws[u] && run[u + 1] == ws[u + 1];
      assert Cycle(ram, ws[u], ws[u + 1]) && !Early(ws[u + 1]);
    }
  }

  lemma ModAdds(a: nat, b: nat, c: nat)
    requires a % WORD == b % WORD
    ensures (a + c) % WORD == (b + c) % WORD
  {
  }

  lemma ExactIfNone(ram: nat -> nat, ws: seq<World>, j: Job, t: nat)
    requires IsAnyRun(ram, ws, j) && 1 <= t < |ws| && ws[t].d.snd.state == END && EarlyUntil(ws, t) == 0
    ensures ws[t].sent == Stream(ram, j)
  {
    hide IsAnyRun, IsSendRun, EarlyUntil, Stream;
    NoneEarlyIsSendRun(ram, ws, j, t);
    SendsExactStream(ram, ws[..t + 1], j, t);
  }

  lemma LengthIs(ram: nat -> nat, ws: seq<World>, j: Job, t: nat)
    requires IsAnyRun(ram, ws, j) && 1 <= t < |ws| && ws[t].d.snd.state == END
    ensures |ws[t].sent| % WORD == (j.size + j.size2 + EarlyUntil(ws, t)) % WORD
  {
    hide IsAnyRun, EarlyUntil, Total, DmniInv, SizesOk;
    TotalIs(ram, ws, j, t);
  }

  lemma StreamLength(ram: nat -> nat, j: Job)
    ensures |Stream(ram, j)| == j.size + j.size2
  {
  }

  /** Every run of a job, whatever the credits: when the sender reaches END the network has
      accepted one flit too many for every early loss of credit (modulo 2^32, the width of the
      size register), so the stream is the promised one exactly if there was none. */
  lemma ExactIff(ram: nat -> nat, ws: seq<World>, j: Job, t: nat)
    requires IsAnyRun(ram, ws, j) && 1 <= t < |ws| && ws[t].d.snd.state == END && EarlyUntil(ws, t) < WORD
    ensures |ws[t].sent| % WORD == (j.size + j.size2 + EarlyUntil(ws, t)) % WORD
    ensures ws[t].sent == Stream(ram, j) <==> EarlyUntil(ws, t) == 0
  {
    hide IsAnyRun, EarlyUntil, Stream;
    LengthIs(ram, ws, j, t);
    if EarlyUntil(ws, t) == 0 {
      ExactIfNone(ram, ws, j, t);
    } else {
      StreamLength(ram, j);
      ModDiffers(j.size + j.size2, EarlyUntil(ws, t));
    }
  }

  lemma ModDiffers(a: nat, b: nat)
    requires 0 < b < WORD
    ensures a % WORD != (a + b) % WORD
  {
  }
}
