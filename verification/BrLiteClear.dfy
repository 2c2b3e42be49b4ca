/** The clear wave: a CLEAR that starts at the source of a flood at rest follows the tree of
    `origin` ports and empties every table, although no router sends towards its origin. */
module BrLiteClear {
  import opened Topology
  import opened BrLite
  import opened BrLiteCam
  import opened BrLiteLine
  import opened BrLiteMesh
  import opened BrLiteFlood

  /** A flood at rest: its source, its key, who holds it, and the tree of origin ports. The
      stamps, the times at which the routers were reached, decrease towards the root. */
  datatype Wave = Wave(src: Pos, key: Key, held: set<Pos>, par: map<Pos, Port>, stamp: map<Pos, nat>)

  function Parent(v: Wave, p: Pos): Pos
    requires p in v.par
  {
    Nbr(p, v.par[p])
  }

  /** The origin ports span the holders: from each of them they lead, in strictly older
      steps, to the source. */
  ghost predicate IsTree(v: Wave) {
    && v.src in v.held && v.held <= v.par.Keys && v.held <= v.stamp.Keys
    && (forall p :: p in v.held && p != v.src ==>
          v.par[p] != LOCAL && Parent(v, p) in v.held && v.stamp[Parent(v, p)] < v.stamp[p])
    && v.par[v.src] == LOCAL
  }

  /** A line of the wave is at rest with the flood, or on its way out as a CLEAR. */
  ghost predicate StageInv(n: Net, v: Wave, p: Pos, i: nat)
    requires Shaped(n) && p in n.r && i < |n.r[p].io.flag| && IsTree(v)
  {
    var r := n.r[p];
    && p in v.held && r.inp.entry[i].origin == v.par[p]
    && (r.io.flag[i].svc != CLEAR ==> !r.io.flag[i].pending && !Sending(r, i) && !SendingLocal(r, i))
    && (r.io.flag[i].svc == CLEAR ==> r.io.flag[i].pending || Sending(r, i) || Freeing(r, i))
    && (forall q: Port :: r.outp.line == i && r.outp.req[q] ==> r.outp.msg[q].svc == CLEAR && q != LOCAL && q != v.par[p])
    && (Sending(r, i) ==> r.outp.ackPorts[LOCAL])
  }

  /** The CLEAR has reached the neighbour of `p` behind port `q`. */
  ghost predicate Reached(n: Net, v: Wave, p: Pos, q: Port)
    requires Shaped(n)
  {
    Nbr(p, q) in n.r ==> !Fresh(RouterAt(n, Nbr(p, q)), v.key)
  }

  /** A request for the key is up from `p` through `q`, and so is the acknowledge. */
  predicate Answered(n: Net, v: Wave, p: Pos, q: Port)
    requires Shaped(n) && p in n.r
  {
    && q != LOCAL && Nbr(p, q) in n.r && n.r[p].outp.req[q] && n.r[p].outp.msg[q].key == v.key
    && RouterAt(n, Nbr(p, q)).inp.ack[Opp(q)]
  }

  /** A router that sends its CLEAR has reached the neighbours that acknowledged; one that
      frees its line, or has freed it, has reached all but its parent. */
  ghost predicate ReachInv(n: Net, v: Wave, p: Pos)
    requires Shaped(n) && p in n.r && IsTree(v)
  {
    var r := n.r[p];
    && (p in v.held && !Has(r, v.key) ==> forall q: Port :: q != LOCAL && q != v.par[p] ==> Reached(n, v, p, q))
    && (forall i: nat :: At(r, v.key, i) && Freeing(r, i) ==>
          p in v.held && forall q: Port :: q != LOCAL && q != v.par[p] ==> Reached(n, v, p, q))
    && (forall i: nat :: At(r, v.key, i) && Sending(r, i) ==>
          p in v.held && forall q: Port :: q != LOCAL && q != v.par[p] && r.outp.ackPorts[q] ==> Reached(n, v, p, q))
    && (forall q: Port :: Answered(n, v, p, q) ==> Reached(n, v, p, q))
  }

  ghost predicate AllStages(n: Net, v: Wave)
    requires Shaped(n) && IsTree(v)
  {
    forall p, i: nat :: p in n.r && At(n.r[p], v.key, i) ==> StageInv(n, v, p, i)
  }

  ghost predicate AllReached(n: Net, v: Wave)
    requires Shaped(n) && IsTree(v)
  {
    forall p :: p in n.r ==> ReachInv(n, v, p)
  }

  /** During the wave no processing element asks to broadcast under this key again. */
  ghost predicate KeyRests(n: Net, k: Key)
    requires Shaped(n)
  {
    forall p :: p in n.r && n.pe[p].req ==> n.pe[p].msg.key != k
  }

  ghost predicate WaveInv(n: Net, v: Wave, nx: nat, ny: nat) {
    && Shaped(n) && NetInv(n, nx, ny) && IsTree(v) && v.held <= n.r.Keys
    && AllStages(n, v) && AllReached(n, v) && KeyRests(n, v.key)
  }

  ghost predicate WaveNext(n: Net, n': Net, k: Key)
    requires Shaped(n)
  {
    NetNext(n, n') && Shaped(n') && KeyRests(n', k)
  }

  lemma RouterOk(n: Net, v: Wave, nx: nat, ny: nat, p: Pos)
    requires WaveInv(n, v, nx, ny) && p in n.r
    ensures CamInv(n.r[p], WiresAt(n, p))
  {
    hide AllStages, AllReached, IsTree, KeyRests, CamInv;
  }

  lemma StageFacts(n: Net, v: Wave, nx: nat, ny: nat, p: Pos, i: nat)
    requires WaveInv(n, v, nx, ny) && p in n.r && At(n.r[p], v.key, i)
    ensures StageInv(n, v, p, i) && i < |n.r[p].inp.entry|
  {
    hide NetInv, AllReached, KeyRests, StageInv;
  }

  lemma ReachFacts(n: Net, v: Wave, nx: nat, ny: nat, p: Pos)
    requires WaveInv(n, v, nx, ny) && p in n.r
    ensures ReachInv(n, v, p)
  {
    hide NetInv, AllStages, KeyRests, ReachInv;
  }

  /** On the wires the key now belongs to CLEAR messages only, and never to a local request. */
  lemma WireClear(n: Net, v: Wave, nx: nat, ny: nat, p: Pos, q: Port)
    requires WaveInv(n, v, nx, ny) && p in n.r
    requires WiresAt(n, p).req[q] && WiresAt(n, p).msg[q].key == v.key
    ensures q != LOCAL && WiresAt(n, p).msg[q].svc == CLEAR
  {
    hide NetInv, AllStages, AllReached, IsTree, CamInv;
    if q != LOCAL {
      var b := Nbr(p, q);
      RouterOk(n, v, nx, ny, b);
      RequestsMatch(n.r[b], WiresAt(n, b), n.r[b].outp.line);
      StageFacts(n, v, nx, ny, b, n.r[b].outp.line);
    }
  }

  /** Nothing is inserted: every line of the key was there before. */
  lemma NothingNew(n: Net, n': Net, v: Wave, nx: nat, ny: nat, p: Pos, i: nat)
    requires WaveInv(n, v, nx, ny) && WaveNext(n, n', v.key) && p in n.r && p in n'.r && At(n'.r[p], v.key, i)
    ensures At(n.r[p], v.key, i)
  {
    hide NetInv, AllStages, AllReached, IsTree, KeyRests, CamInv, Step;
    RouterOk(n, v, nx, ny, p);
    if !At(n.r[p], v.key, i) {
      NewStep(n.r[p], WiresAt(n, p), v.key, i);
      WireClear(n, v, nx, ny, p, n.r[p].inp.port);
    }
  }

  /** How a line of the wave moves on. */
  lemma LineMoves(n: Net, n': Net, v: Wave, nx: nat, ny: nat, p: Pos, i: nat)
    requires WaveInv(n, v, nx, ny) && WaveNext(n, n', v.key) && p in n.r && At(n.r[p], v.key, i)
    ensures p in n'.r && StageInv(n, v, p, i)
    ensures At(n'.r[p], v.key, i) == !Freeing(n.r[p], i)
    ensures At(n'.r[p], v.key, i) ==>
              n'.r[p].inp.entry[i] == n.r[p].inp.entry[i] && (n.r[p].io.flag[i].svc == CLEAR ==> n'.r[p].io.flag[i].svc == CLEAR)
    ensures Freeing(n'.r[p], i) ==> Sending(n.r[p], i)
  {
    hide NetInv, AllStages, AllReached, IsTree, KeyRests, CamInv, Step;
    StageFacts(n, v, nx, ny, p, i);
    RouterOk(n, v, nx, ny, p);
    assert n'.r[p] == Step(n.r[p], WiresAt(n, p));
    if n.r[p].io.flag[i].svc == CLEAR {
      ClearStep(n.r[p], WiresAt(n, p), v.key, i);
    } else {
      RestStep(n.r[p], WiresAt(n, p), v.key, i);
      NotFreeing(n.r[p], WiresAt(n, p), i);
    }
  }

  lemma NotFreeing(r: Router, w: Wires, i: nat)
    requires CamInv(r, w) && i < |r.io.flag| && r.io.flag[i].svc != CLEAR
    ensures !Freeing(r, i)
  {
  }

  /** A router never goes back from the CLEAR to the plain flood. */
  lemma FreshShrinks(n: Net, n': Net, v: Wave, nx: nat, ny: nat, p: Pos)
    requires WaveInv(n, v, nx, ny) && WaveNext(n, n', v.key) && p in n.r && p in n'.r && Fresh(n'.r[p], v.key)
    ensures Fresh(n.r[p], v.key)
  {
    hide NetNext, NetInv, AllStages, AllReached, IsTree, KeyRests, StageInv, Freeing;
    var i: nat :| At(n'.r[p], v.key, i) && n'.r[p].io.flag[i].svc != CLEAR;
    NothingNew(n, n', v, nx, ny, p, i);
    LineMoves(n, n', v, nx, ny, p, i);
  }

  /** A neighbour once reached stays reached. */
  lemma ReachedStays(n: Net, n': Net, v: Wave, nx: nat, ny: nat, p: Pos, q: Port)
    requires WaveInv(n, v, nx, ny) && WaveNext(n, n', v.key) && Reached(n, v, p, q)
    ensures Reached(n', v, p, q)
  {
    hide NetInv, AllStages, AllReached, IsTree, KeyRests, NetNext, Fresh;
    var b := Nbr(p, q);
    if b in n'.r && Fresh(RouterAt(n', b), v.key) {
      SameRouters(n, n', v);
      FreshShrinks(n, n', v, nx, ny, b);
    }
  }

  /** What goes out for the key is a CLEAR, away from the origin and not to the local sink. */
  lemma SentAway(n: Net, n': Net, v: Wave, nx: nat, ny: nat, p: Pos, i: nat, q: Port)
    requires WaveInv(n, v, nx, ny) && WaveNext(n, n', v.key) && p in n.r && p in n'.r
    requires At(n.r[p], v.key, i) && n'.r[p].outp.line == i && n'.r[p].outp.req[q]
    ensures n'.r[p].outp.msg[q].svc == CLEAR && q != LOCAL && q != v.par[p]
  {
    hide NetInv, AllStages, AllReached, IsTree, KeyRests, CamInv, Step;
    var r, w := n.r[p], WiresAt(n, p);
    StageFacts(n, v, nx, ny, p, i);
    RouterOk(n, v, nx, ny, p);
    assert n'.r[p] == Step(r, w);
    RequestStep(r, w, q);
    if !r.outp.req[q] {
      TestedIsPending(r, w);
      ClearIsSent(r, w, q);
    }
  }

  /** The stage of a line after the cycle. */
  lemma StageMoves(r: Router, w: Wires, k: Key, i: nat)
    requires CamInv(r, w) && At(r, k, i) && At(Step(r, w), k, i)
    requires if r.io.flag[i].svc == CLEAR then r.io.flag[i].pending || Sending(r, i) || Freeing(r, i)
             else !r.io.flag[i].pending && !Sending(r, i) && !SendingLocal(r, i)
    requires Sending(r, i) ==> r.outp.ackPorts[LOCAL]
    ensures var r' := Step(r, w);
            && r'.inp.entry[i] == r.inp.entry[i]
            && (r'.io.flag[i].svc != CLEAR ==> !r'.io.flag[i].pending && !Sending(r', i) && !SendingLocal(r', i))
            && (r'.io.flag[i].svc == CLEAR ==> r'.io.flag[i].pending || Sending(r', i) || Freeing(r', i))
            && (Sending(r', i) ==> r'.outp.ackPorts[LOCAL])
  {
    hide UniqueKeys, InOk, OutOk, Step;
    SendStep(r, w, i);
    if r.io.flag[i].svc == CLEAR {
      ClearStep(r, w, k, i);
      if Sending(Step(r, w), i) && !Sending(r, i) {
        ClearIsSent(r, w, LOCAL);
      }
    } else {
      RestStep(r, w, k, i);
    }
  }

  lemma Stepped(n: Net, n': Net, v: Wave, p: Pos)
    requires Shaped(n) && WaveNext(n, n', v.key) && p in n.r && p in n'.r
    ensures n'.r[p] == Step(n.r[p], WiresAt(n, p))
  {
  }

  lemma KeepsStage(n: Net, n': Net, v: Wave, nx: nat, ny: nat, p: Pos, i: nat)
    requires WaveInv(n, v, nx, ny) && WaveNext(n, n', v.key) && p in n.r && p in n'.r
    requires At(n'.r[p], v.key, i)
    ensures StageInv(n', v, p, i)
  {
    hide NetInv, AllStages, AllReached, KeyRests, CamInv, Step, Sending, SendingLocal, Freeing, NetNext, WiresAt;
    var r, r', w := n.r[p], n'.r[p], WiresAt(n, p);
    NothingNew(n, n', v, nx, ny, p, i);
    StageFacts(n, v, nx, ny, p, i);
    RouterOk(n, v, nx, ny, p);
    Stepped(n, n', v, p);
    StageMoves(r, w, v.key, i);
    forall q: Port | r'.outp.line == i && r'.outp.req[q]
      ensures r'.outp.msg[q].svc == CLEAR && q != LOCAL && q != v.par[p]
    {
      SentAway(n, n', v, nx, ny, p, i, q);
    }
  }

  lemma TestedIsPending(r: Router, w: Wires)
    requires CamInv(r, w)
    ensures r.outp.state == OUT_TEST_SVC ==> PendingLine(r, r.outp.line)
  {
  }

  /** A port that counts as acknowledged while the CLEAR is sent leads to a reached neighbour. */
  lemma AckedReached(n: Net, v: Wave, nx: nat, ny: nat, p: Pos, i: nat, q: Port)
    requires WaveInv(n, v, nx, ny) && p in n.r && At(n.r[p], v.key, i) && Sending(n.r[p], i)
    requires p in v.held && q != LOCAL && q != v.par[p] && (n.r[p].outp.ackPorts[q] || WiresAt(n, p).ack[q])
    ensures Reached(n, v, p, q)
  {
    hide NetInv, AllStages, AllReached, KeyRests, CamInv, Has;
    ReachFacts(n, v, nx, ny, p);
    RouterOk(n, v, nx, ny, p);
    RequestsMatch(n.r[p], WiresAt(n, p), i);
    if !n.r[p].outp.ackPorts[q] && Nbr(p, q) in n.r {
      assert Answered(n, v, p, q);
    }
  }

  lemma KeepsSendReach(n: Net, n': Net, v: Wave, nx: nat, ny: nat, p: Pos, i: nat, q: Port)
    requires WaveInv(n, v, nx, ny) && WaveNext(n, n', v.key) && p in n.r && p in n'.r
    requires At(n'.r[p], v.key, i) && p in v.held && q != LOCAL && q != v.par[p]
    requires Freeing(n'.r[p], i) || (Sending(n'.r[p], i) && n'.r[p].outp.ackPorts[q])
    ensures Reached(n', v, p, q)
  {
    hide NetInv, AllStages, AllReached, KeyRests, CamInv, Step, Has, Reached;
    var r, w := n.r[p], WiresAt(n, p);
    NothingNew(n, n', v, nx, ny, p, i);
    LineMoves(n, n', v, nx, ny, p, i);
    RouterOk(n, v, nx, ny, p);
    SendStep(r, w, i);
    assert n'.r[p] == Step(r, w);
    if !Sending(r, i) {
      TestedIsPending(r, w);
      ClearIsSent(r, w, q);
    }
    AckedReached(n, v, nx, ny, p, i, q);
    ReachedStays(n, n', v, nx, ny, p, q);
  }

  /** The acknowledge of a CLEAR means that its receiver holds the plain flood no more. */
  lemma AnsweredReached(n: Net, n': Net, v: Wave, nx: nat, ny: nat, p: Pos, q: Port)
    requires WaveInv(n, v, nx, ny) && WaveNext(n, n', v.key) && p in n.r && p in n'.r && n'.r.Keys == n.r.Keys
    requires Answered(n', v, p, q)
    ensures Reached(n', v, p, q)
  {
    hide NetInv, AllStages, AllReached, KeyRests, CamInv, Step, Has, Fresh;
    var b := Nbr(p, q);
    OppIsBack(p, q);
    RouterOk(n, v, nx, ny, p);
    RouterOk(n, v, nx, ny, b);
    assert n'.r[p] == Step(n.r[p], WiresAt(n, p)) && n'.r[b] == Step(n.r[b], WiresAt(n, b));
    RequestStep(n.r[p], WiresAt(n, p), q);
    if !n.r[p].outp.req[q] {
      AckFalls(n.r[b], WiresAt(n, b), Opp(q));
    } else {
      WireClear(n, v, nx, ny, b, Opp(q));
      forall i: nat | At(n.r[b], v.key, i) && n.r[b].io.flag[i].svc != CLEAR
        ensures !n.r[b].io.flag[i].pending
      {
        StageFacts(n, v, nx, ny, b, i);
      }
      ClearAckStep(n.r[b], WiresAt(n, b), v.key, Opp(q));
    }
  }

  /** A router whose line is freed in this cycle, or was before, has reached all but its parent. */
  lemma KeepsGoneReach(n: Net, n': Net, v: Wave, nx: nat, ny: nat, p: Pos, q: Port)
    requires WaveInv(n, v, nx, ny) && WaveNext(n, n', v.key) && p in n.r && p in n'.r
    requires p in v.held && !Has(n'.r[p], v.key) && q != LOCAL && q != v.par[p]
    ensures Reached(n', v, p, q)
  {
    hide NetInv, AllStages, AllReached, KeyRests, CamInv, StageInv, At, Reached, NetNext;
    ReachFacts(n, v, nx, ny, p);
    if Has(n.r[p], v.key) {
      var i: nat :| At(n.r[p], v.key, i);
      LineMoves(n, n', v, nx, ny, p, i);
    }
    ReachedStays(n, n', v, nx, ny, p, q);
  }

  lemma KeepsReach(n: Net, n': Net, v: Wave, nx: nat, ny: nat, p: Pos)
    requires WaveInv(n, v, nx, ny) && WaveNext(n, n', v.key) && p in n.r && p in n'.r && n'.r.Keys == n.r.Keys
    ensures ReachInv(n', v, p)
  {
    hide NetInv, AllStages, AllReached, KeyRests, CamInv, Has, Reached, NetNext, At, Answered, Sending, Freeing;
    var r' := n'.r[p];
    forall q: Port | p in v.held && !Has(r', v.key) && q != LOCAL && q != v.par[p]
      ensures Reached(n', v, p, q)
    {
      KeepsGoneReach(n, n', v, nx, ny, p, q);
    }
    forall i: nat | At(r', v.key, i)
      ensures p in v.held
    {
      NothingNew(n, n', v, nx, ny, p, i);
      StageFacts(n, v, nx, ny, p, i);
    }
    forall i: nat, q: Port | At(r', v.key, i) && q != LOCAL && q != v.par[p]
        && (Freeing(r', i) || (Sending(r', i) && r'.outp.ackPorts[q]))
      ensures Reached(n', v, p, q)
    {
      KeepsSendReach(n, n', v, nx, ny, p, i, q);
    }
    forall q: Port | Answered(n', v, p, q)
      ensures Reached(n', v, p, q)
    {
      AnsweredReached(n, n', v, nx, ny, p, q);
    }
  }

  lemma StagesKept(n: Net, n': Net, v: Wave, nx: nat, ny: nat)
    requires WaveInv(n, v, nx, ny) && WaveNext(n, n', v.key) && n'.r.Keys == n.r.Keys
    ensures AllStages(n', v)
  {
    hide NetInv, AllReached, KeyRests, NetNext, StageInv;
    forall p, i: nat | p in n'.r && At(n'.r[p], v.key, i)
      ensures StageInv(n', v, p, i)
    {
      KeepsStage(n, n', v, nx, ny, p, i);
    }
  }

  lemma ReachesKept(n: Net, n': Net, v: Wave, nx: nat, ny: nat)
    requires WaveInv(n, v, nx, ny) && WaveNext(n, n', v.key) && n'.r.Keys == n.r.Keys
    ensures AllReached(n', v)
  {
    hide NetInv, AllStages, KeyRests, NetNext, ReachInv;
    forall p | p in n'.r
      ensures ReachInv(n', v, p)
    {
      KeepsReach(n, n', v, nx, ny, p);
    }
  }

  lemma KeepsWaveInv(n: Net, n': Net, v: Wave, nx: nat, ny: nat)
    requires WaveInv(n, v, nx, ny) && WaveNext(n, n', v.key)
    ensures WaveInv(n', v, nx, ny)
  {
    hide NetInv, AllStages, AllReached, KeyRests, NetNext;
    SameRouters(n, n', v);
    NetKeepsInv(n, n', nx, ny);
    StagesKept(n, n', v, nx, ny);
    ReachesKept(n, n', v, nx, ny);
  }

  /** Every line for the key at `p` is being freed in this cycle. */
  ghost predicate Gone(n: Net, v: Wave, p: Pos)
    requires Shaped(n) && p in n.r
  {
    forall i: nat :: At(n.r[p], v.key, i) ==> Freeing(n.r[p], i)
  }

  /** In a quiet mesh a line that has turned into a CLEAR is being freed. */
  lemma QuietFrees(n: Net, v: Wave, nx: nat, ny: nat, p: Pos)
    requires WaveInv(n, v, nx, ny) && Quiet(n, v.key) && p in n.r && !Fresh(n.r[p], v.key)
    ensures Gone(n, v, p)
  {
    hide NetInv, AllStages, AllReached, KeyRests, CamInv, IsTree;
    forall i: nat | At(n.r[p], v.key, i)
      ensures Freeing(n.r[p], i)
    {
      StageFacts(n, v, nx, ny, p, i);
      if Sending(n.r[p], i) {
        RouterOk(n, v, nx, ny, p);
        SendingRequests(n.r[p], WiresAt(n, p), i);
      }
    }
  }

  /** A router whose line is gone has reached its children. */
  lemma ParentReaches(n: Net, v: Wave, nx: nat, ny: nat, p: Pos)
    requires WaveInv(n, v, nx, ny) && p in v.held && p != v.src && p in n.r
    requires Parent(v, p) in n.r && Gone(n, v, Parent(v, p))
    ensures !Fresh(n.r[p], v.key)
  {
    hide NetInv, AllStages, AllReached, KeyRests, CamInv;
    var b := Parent(v, p);
    var q := Opp(v.par[p]);
    OppIsBack(p, v.par[p]);
    // the parent does not skip this child: its own parent is older than itself
    assert q != v.par[b];
    ReachFacts(n, v, nx, ny, b);
    if Has(n.r[b], v.key) {
      var i: nat :| At(n.r[b], v.key, i);
      assert Freeing(n.r[b], i);
    }
    assert Reached(n, v, b, q);
  }

  /** The wave follows the tree: where the parent is gone, the child is gone. */
  lemma {:induction false} TreeIsGone(n: Net, v: Wave, nx: nat, ny: nat, p: Pos)
    requires WaveInv(n, v, nx, ny) && Quiet(n, v.key) && v.src in n.r && !Fresh(n.r[v.src], v.key) && p in v.held && p in n.r
    ensures Gone(n, v, p)
    decreases v.stamp[p]
  {
    hide NetInv, AllStages, AllReached, KeyRests, CamInv, Quiet;
    if p == v.src {
      QuietFrees(n, v, nx, ny, p);
    } else {
      TreeIsGone(n, v, nx, ny, Parent(v, p));
      ParentReaches(n, v, nx, ny, p);
      QuietFrees(n, v, nx, ny, p);
    }
  }

  /** A run in which no processing element asks for key `k`. */
  ghost predicate IsQuietRun(ns: seq<Net>, k: Key) {
    && 0 < |ns| && (forall t :: 0 <= t < |ns| ==> Shaped(ns[t]))
    && (forall t :: 0 <= t < |ns| - 1 ==> WaveNext(ns[t], ns[t + 1], k))
  }

  ghost predicate IsWaveRun(ns: seq<Net>, v: Wave, nx: nat, ny: nat) {
    IsQuietRun(ns, v.key) && WaveInv(ns[0], v, nx, ny)
  }

  lemma {:induction false} WaveRunKeepsInv(ns: seq<Net>, v: Wave, nx: nat, ny: nat, t: nat)
    requires IsWaveRun(ns, v, nx, ny) && t < |ns|
    ensures WaveInv(ns[t], v, nx, ny)
  {
    hide WaveInv, WaveNext;
    if t > 0 {
      WaveRunKeepsInv(ns, v, nx, ny, t - 1);
      KeepsWaveInv(ns[t - 1], ns[t], v, nx, ny);
    }
  }

  /** No line for the key is written while the wave runs. */
  lemma {:induction false} NeverReinserted(ns: seq<Net>, v: Wave, nx: nat, ny: nat, t: nat, u: nat, p: Pos, i: nat)
    requires IsWaveRun(ns, v, nx, ny) && t <= u < |ns| && p in ns[t].r && p in ns[u].r && At(ns[u].r[p], v.key, i)
    ensures At(ns[t].r[p], v.key, i)
    decreases u - t
  {
    hide WaveInv, WaveNext, At;
    if t < u {
      WaveRunKeepsInv(ns, v, nx, ny, u - 1);
      SameRouters(ns[u - 1], ns[u], v);
      NothingNew(ns[u - 1], ns[u], v, nx, ny, p, i);
      NeverReinserted(ns, v, nx, ny, t, u - 1, p, i);
    }
  }

  /** The clear wave empties the mesh: once its source holds the plain flood no more and
      the mesh is quiet, from the next cycle on no router has a line for the key. */
  lemma ClearEmptiesMesh(ns: seq<Net>, v: Wave, nx: nat, ny: nat, t: nat, u: nat, p: Pos)
    requires IsWaveRun(ns, v, nx, ny) && t < u < |ns| && Quiet(ns[t], v.key)
    requires v.src in ns[t].r && !Fresh(ns[t].r[v.src], v.key) && p in ns[t].r && p in ns[u].r
    ensures !Has(ns[u].r[p], v.key)
  {
    hide WaveInv, StageInv, NetNext, KeyRests, Quiet, Fresh, At, Freeing;
    WaveRunKeepsInv(ns, v, nx, ny, t);
    if Has(ns[u].r[p], v.key) {
      var i: nat :| At(ns[u].r[p], v.key, i);
      NeverReinserted(ns, v, nx, ny, t, u, p, i);
      assert p in ns[t + 1].r by { SameRouters(ns[t], ns[t + 1], v); }
      NeverReinserted(ns, v, nx, ny, t + 1, u, p, i);
      LineMoves(ns[t], ns[t + 1], v, nx, ny, p, i);
      assert p in v.held by { HeldOnly(ns[t], v, nx, ny, p, i); }
      TreeIsGone(ns[t], v, nx, ny, p);
    }
  }

  lemma SameRouters(n: Net, n': Net, v: Wave)
    requires Shaped(n) && WaveNext(n, n', v.key)
    ensures n'.r.Keys == n.r.Keys
  {
  }

  lemma HeldOnly(n: Net, v: Wave, nx: nat, ny: nat, p: Pos, i: nat)
    requires WaveInv(n, v, nx, ny) && p in n.r && At(n.r[p], v.key, i)
    ensures p in v.held
  {
    StageFacts(n, v, nx, ny, p, i);
  }

  /** The port through which `r` got flood `k`. */
  ghost function OriginOf(r: Router, k: Key): Port
    requires Shape(r) && Has(r, k)
  {
    var i: nat :| At(r, k, i);
    r.inp.entry[i].origin
  }

  lemma OriginIs(r: Router, w: Wires, k: Key, i: nat)
    requires CamInv(r, w) && At(r, k, i)
    ensures Has(r, k) && OriginOf(r, k) == r.inp.entry[i].origin
  {
    var j: nat :| At(r, k, j) && OriginOf(r, k) == r.inp.entry[j].origin;
    SameLine(r, w, k, i, j);
  }

  /** The wave that a quiet flood is ready for. */
  ghost function WaveOf(n: Net, f: Flood, stamp: map<Pos, nat>): Wave
    requires Shaped(n)
  {
    Wave(f.src, f.m.key, set p | p in n.r && Has(n.r[p], f.m.key),
         map p | p in n.r :: if Has(n.r[p], f.m.key) then OriginOf(n.r[p], f.m.key) else LOCAL, stamp)
  }

  lemma FloodTree(n: Net, f: Flood, stamp: map<Pos, nat>, now: nat, nx: nat, ny: nat)
    requires FloodInv(n, f, stamp, now, nx, ny) && f.src in n.r && Has(n.r[f.src], f.m.key)
    ensures IsTree(WaveOf(n, f, stamp))
  {
    hide FloodOk, AllLines, AllDeliveries, AllAcks, RequestsOk, CamInv, SpreadInv, LineMsg;
    var v := WaveOf(n, f, stamp);
    forall p | p in v.held
      ensures if p == f.src then v.par[p] == LOCAL
              else v.par[p] != LOCAL && Parent(v, p) in v.held && v.stamp[Parent(v, p)] < v.stamp[p]
    {
      var i: nat :| At(n.r[p], f.m.key, i);
      RouterFacts(n, f, stamp, now, nx, ny, p);
      OriginIs(n.r[p], WiresAt(n, p), f.m.key, i);
      LineFacts(n, f, stamp, now, nx, ny, p, i);
    }
  }

  lemma FloodStages(n: Net, f: Flood, stamp: map<Pos, nat>, now: nat, nx: nat, ny: nat, p: Pos, i: nat)
    requires FloodInv(n, f, stamp, now, nx, ny) && Quiet(n, f.m.key) && f.src in n.r && Has(n.r[f.src], f.m.key)
    requires p in n.r && At(n.r[p], f.m.key, i) && IsTree(WaveOf(n, f, stamp))
    ensures StageInv(n, WaveOf(n, f, stamp), p, i) && n.r[p].io.flag[i].svc != CLEAR
    ensures !Sending(n.r[p], i)
  {
    hide FloodOk, AllLines, AllDeliveries, AllAcks, RequestsOk, CamInv, SpreadInv;
    RouterFacts(n, f, stamp, now, nx, ny, p);
    OriginIs(n.r[p], WiresAt(n, p), f.m.key, i);
    LineFacts(n, f, stamp, now, nx, ny, p, i);
    if Sending(n.r[p], i) || SendingLocal(n.r[p], i) {
      SendingRequests(n.r[p], WiresAt(n, p), i);
    }
    RequestsMatch(n.r[p], WiresAt(n, p), i);
  }

  /** A flood that has gone quiet leaves a mesh in which its clear wave may start. */
  lemma QuietFloodAwaitsClear(n: Net, f: Flood, stamp: map<Pos, nat>, now: nat, nx: nat, ny: nat)
    requires FloodInv(n, f, stamp, now, nx, ny) && Quiet(n, f.m.key) && f.src in n.r && Has(n.r[f.src], f.m.key)
    requires KeyRests(n, f.m.key)
    ensures WaveInv(n, WaveOf(n, f, stamp), nx, ny)
  {
    hide AllLines, AllDeliveries, AllAcks, RequestsOk, CamInv, SpreadInv, LineMsg, StageInv, KeyRests;
    var v := WaveOf(n, f, stamp);
    FloodTree(n, f, stamp, now, nx, ny);
    forall p, i: nat | p in n.r && At(n.r[p], v.key, i)
      ensures StageInv(n, v, p, i) && n.r[p].io.flag[i].svc != CLEAR && !Sending(n.r[p], i)
    {
      FloodStages(n, f, stamp, now, nx, ny, p, i);
    }
    forall p | p in n.r
      ensures ReachInv(n, v, p)
    {
      forall i: nat | At(n.r[p], v.key, i)
        ensures !Freeing(n.r[p], i)
      {
        RouterFacts(n, f, stamp, now, nx, ny, p);
        NotFreeing(n.r[p], WiresAt(n, p), i);
      }
    }
  }

  lemma FloodBecomesWave(flood: seq<Net>, f: Flood, nx: nat, ny: nat) returns (v: Wave)
    requires IsFloodRun(flood, f, nx, ny) && Quiet(flood[|flood| - 1], f.m.key) && KeyRests(flood[|flood| - 1], f.m.key)
    requires f.src in flood[|flood| - 1].r && Has(flood[|flood| - 1].r[f.src], f.m.key)
    ensures v.src == f.src && v.key == f.m.key && WaveInv(flood[|flood| - 1], v, nx, ny)
  {
    hide FloodInv, WaveInv, NetNext, KeyRests, Quiet, FloodNext, FloodOk, Unused, RequestsOk, Has;
    var n := flood[|flood| - 1];
    var stamp := FloodRunKeepsInv(flood, f, nx, ny, |flood| - 1);
    QuietFloodAwaitsClear(n, f, stamp, |flood| - 1, nx, ny);
    v := WaveOf(n, f, stamp);
  }

  /** The life of one broadcast: `flood` observes it from an unused key until it is quiet,
      `wave` goes on from there. When the source has started the CLEAR and the mesh is quiet
      again, every table is free of the key, and stays so. */
  lemma BroadcastLeavesNoTrace(flood: seq<Net>, f: Flood, wave: seq<Net>, nx: nat, ny: nat, t: nat, u: nat, p: Pos)
    requires IsFloodRun(flood, f, nx, ny) && Quiet(flood[|flood| - 1], f.m.key)
    requires f.src in flood[|flood| - 1].r && Has(flood[|flood| - 1].r[f.src], f.m.key)
    requires IsQuietRun(wave, f.m.key) && wave[0] == flood[|flood| - 1] && KeyRests(wave[0], f.m.key)
    requires t < u < |wave| && Quiet(wave[t], f.m.key)
    requires f.src in wave[t].r && !Fresh(wave[t].r[f.src], f.m.key) && p in wave[t].r && p in wave[u].r
    ensures !Has(wave[u].r[p], f.m.key)
  {
    hide IsFloodRun, WaveInv, KeyRests, Quiet, Fresh, Has, WaveNext;
    assert Shaped(wave[0]);
    var v := FloodBecomesWave(flood, f, nx, ny);
    ClearEmptiesMesh(wave, v, nx, ny, t, u, p);
  }

  /** Why the wave has to wait for the flood to rest: a CLEAR that finds the line of its
      flood still waiting for acknowledges is taken, and the line is freed as soon as the last
      acknowledge comes in, without one CLEAR having been requested from a neighbour. */
  lemma EarlyClearIsSwallowed(r: Router, w: Wires, w': Wires, w'': Wires, i: nat, q: Port)
    requires CamInv(r, w) && WiresOk(w') && WiresOk(w'')
    requires r.inp.state == IN_CLEAR && r.inp.sourceIdx == i && Sending(r, i)
    requires r.io.flag[i].svc != CLEAR && !r.io.flag[i].pending && r.outp.msg[q].svc != CLEAR
    requires exists p: Port :: !r.outp.ackPorts[p] && !w.ack[p]
    requires forall p: Port :: w'.ack[p]
    ensures var r1 := Step(r, w); var r2 := Step(r1, w'); var r3 := Step(r2, w'');
            && r1.io.flag[i].svc == CLEAR && r1.io.flag[i].pending
            && !r3.io.flag[i].used
            && r1.outp.msg[q].svc != CLEAR && !r2.outp.req[q] && !r3.outp.req[q]
  {
    var p: Port :| !r.outp.ackPorts[p] && !w.ack[p];
    assert !AckedPorts(r.outp, w)[p];
    var r1 := Step(r, w);
    assert Sending(r1, i);
    assert forall m :: 0 <= m < NPORT ==> AckedPorts(r1.outp, w')[m];
    KeepsOutOk(r, w);
    assert Freeing(Step(r1, w'), i);
  }
}
