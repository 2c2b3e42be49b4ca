/** The list of applications to start: what the scenario prints, and how the injector finds
    the image of the n-th application by skipping over the ones before it. */
module AppStart {
  /** A line holds a name or a number; reading a number from a name is refused. */
  datatype Line = Name(name: string) | Number(value: int)

  datatype App = App(name: string, startMs: nat, mapping: seq<int>)

  datatype Found = Path(name: string) | NotANumber | EndOfFile

  /** Three lines and one for each task: its static address or -1. */
  function Entry(a: App): (e: seq<Line>)
    ensures |e| == 3 + |a.mapping|
  {
    [Name(a.name), Number(a.startMs), Number(|a.mapping|)] + seq<Line>(|a.mapping|, i requires 0 <= i < |a.mapping| => Number(a.mapping[i]))
  }

  function Lines(apps: seq<App>): seq<Line> {
    if apps == [] then [] else Entry(apps[0]) + Lines(apps[1..])
  }

  method GenerateAppStart(apps: seq<App>) returns (lines: seq<Line>)
    ensures lines == Lines(apps)
  {
    lines := [];
    var k := 0;
    assert apps[0..] == apps;
    while k < |apps|
      invariant k <= |apps| && lines + Lines(apps[k..]) == Lines(apps)
    {
      var a := apps[k];
      ghost var before := lines;
      lines := lines + [Name(a.name), Number(a.startMs), Number(|a.mapping|)];
      var t := 0;
      while t < |a.mapping|
        invariant t <= |a.mapping| && lines == before + Entry(a)[..3 + t]
      {
        lines := lines + [Number(a.mapping[t])];
        assert Entry(a)[..3 + t + 1] == Entry(a)[..3 + t] + [Number(a.mapping[t])];
        t := t + 1;
      }
      assert Entry(a)[..3 + t] == Entry(a);
      assert apps[k..][1..] == apps[k + 1..];
      k := k + 1;
    }
  }

  /** The line after `n` entries, each skipped by its own task count. */
  function Skip(lines: seq<Line>, p: nat, n: nat): Found
    decreases n
  {
    if n == 0 then
      if p >= |lines| then EndOfFile
      else if lines[p].Name? then Path(lines[p].name) else NotANumber
    else if p + 3 > |lines| then EndOfFile
    else if !lines[p + 2].Number? || lines[p + 2].value < 0 then NotANumber
    else Skip(lines, p + 3 + lines[p + 2].value, n - 1)
  }

  method GetAppRepoPath(lines: seq<Line>, appId: nat) returns (r: Found)
    ensures r == Skip(lines, 0, appId)
  {
    var p, appCnt := 0, 0;
    while appCnt < appId
      invariant appCnt <= appId && Skip(lines, p, appId - appCnt) == Skip(lines, 0, appId)
    {
      if p + 3 > |lines| { return EndOfFile; }
      var line := lines[p + 2];
      p := p + 3;
      if !line.Number? || line.value < 0 { return NotANumber; }
      var i := 0;
      ghost var start := p;
      while i < line.value
        invariant i <= line.value && p == start + i
      {
        p := p + 1;
        i := i + 1;
      }
      appCnt := appCnt + 1;
    }
    if p >= |lines| { return EndOfFile; }
    if lines[p].Name? { r := Path(lines[p].name); } else { r := NotANumber; }
  }

  lemma {:induction false} SkipFinds(front: seq<Line>, apps: seq<App>, n: nat)
    requires n < |apps|
    ensures Skip(front + Lines(apps), |front|, n) == Path(apps[n].name)
    decreases n
  {
    var lines, e := front + Lines(apps), Entry(apps[0]);
    assert lines == front + e + Lines(apps[1..]);
    assert lines[|front|] == e[0] && lines[|front| + 2] == e[2];
    if n > 0 {
      SkipFinds(front + e, apps[1..], n - 1);
    }
  }

  /** Every application of the scenario is found under its own position. */
  lemma AppIsFound(apps: seq<App>, n: nat)
    requires n < |apps|
    ensures Skip(Lines(apps), 0, n) == Path(apps[n].name)
  {
    assert [] + Lines(apps) == Lines(apps);
    SkipFinds([], apps, n);
  }
}
