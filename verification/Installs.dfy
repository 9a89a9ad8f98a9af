/** src/api/agents.py: installs and updates in the background. A request replaces the agent's record and
    schedules an installer; the installer, when it starts, takes hold of the record it finds and writes
    to it line by line until its command exits. */
module Installs {
  import opened Numerals
  import opened Options

  datatype Status = Running | Done | Error

  /** A record of _install_tasks. `exit` is the exit code its installer saw. */
  datatype Record = Record(status: Status, progress: int, output: seq<string>, error: Option<string>, exit: Option<int>)

  /** Records are numbered as they are made, so that an installer can hold on to one. */
  datatype Installer = Installer(agent: string, record: Option<nat>, ended: bool)

  datatype State = State(records: seq<Record>, current: map<string, nat>, installers: seq<Installer>)

  /** What the words of an output line say. */
  datatype Line = Success | Downloading | Installing | Resolving | Problem | Other

  datatype Step =
    | Request(agent: string, command: bool)  // POST /install or /update of a known agent
    | Begin(k: nat)                          // the scheduled installer starts
    | Output(k: nat, text: string, line: Line)
    | Exit(k: nat, code: int)
    | Crash(k: nat, error: string)

  const START := State([], map[], [])

  const NEW_RECORD := Record(Running, 0, [], None, None)

  function Min(a: int, b: int): int { if a <= b then a else b }

  function Advanced(line: Line, progress: int): int {
    match line
    case Success => 100
    case Downloading => Min(progress + 15, 60)
    case Installing => Min(progress + 10, 80)
    case Resolving => Min(progress + 5, 40)
    case Problem => progress
    case Other => progress
  }

  function ExitText(code: int): string {
    "Exit code " + IntText(code)
  }

  predicate IsRunning(s: State, agent: string) {
    agent in s.current && s.current[agent] < |s.records| && s.records[s.current[agent]].status == Running
  }

  /** An installer that has started and not ended, with its record at hand. */
  predicate Holds(s: State, k: nat) {
    && k < |s.installers| && !s.installers[k].ended
    && s.installers[k].record.Some? && s.installers[k].record.value < |s.records|
  }

  function Held(s: State, k: nat): Record
    requires Holds(s, k)
  {
    s.records[s.installers[k].record.value]
  }

  function WithHeld(s: State, k: nat, record: Record): State
    requires Holds(s, k)
  {
    s.(records := s.records[s.installers[k].record.value := record])
  }

  function WithEnded(s: State, k: nat): State
    requires k < |s.installers|
  {
    s.(installers := s.installers[k := s.installers[k].(ended := true)])
  }

  /** A step that is not possible leaves the state as it is. */
  function Next(s: State, step: Step): State {
    match step
    case Request(agent, command) =>
      if !command || IsRunning(s, agent) then s
      else State(s.records + [NEW_RECORD], s.current[agent := |s.records|], s.installers + [Installer(agent, None, false)])
    case Begin(k) =>
      if k >= |s.installers| || s.installers[k].record.Some? || s.installers[k].agent !in s.current then s
      else s.(installers := s.installers[k := s.installers[k].(record := Some(s.current[s.installers[k].agent]))])
    case Output(k, text, line) =>
      if !Holds(s, k) || text == "" then s
      else
        var r := Held(s, k);
        WithHeld(s, k, r.(output := r.output + [text], progress := Advanced(line, r.progress)))
    case Exit(k, code) =>
      if !Holds(s, k) then s
      else
        var r := Held(s, k).(exit := Some(code));
        WithEnded(WithHeld(s, k, if code == 0 then r.(status := Done, progress := 100)
                                 else r.(status := Error, error := Some(ExitText(code)))), k)
    case Crash(k, error) =>
      if !Holds(s, k) then s
      else WithEnded(WithHeld(s, k, Held(s, k).(status := Error, error := Some(error))), k)
  }

  function Run(steps: seq<Step>): State {
    if |steps| == 0 then START else Next(Run(steps[..|steps| - 1]), steps[|steps| - 1])
  }

  // ----- One installer per record -----

  /** Installer k of this agent is scheduled or under way. */
  predicate InFlight(s: State, agent: string, k: nat) {
    k < |s.installers| && s.installers[k].agent == agent && !s.installers[k].ended
  }

  ghost predicate OneInFlight(s: State, agent: string) {
    exists k :: InFlight(s, agent, k) && forall j :: InFlight(s, agent, j) ==> j == k
  }

  ghost predicate NoneInFlight(s: State, agent: string) {
    forall k :: !InFlight(s, agent, k)
  }

  /** An agent's record is running exactly while one installer for it is in flight. */
  ghost predicate FlightOk(s: State, agent: string) {
    if IsRunning(s, agent) then OneInFlight(s, agent) else NoneInFlight(s, agent)
  }

  ghost predicate FlightInv(s: State) {
    forall a :: FlightOk(s, a)
  }

  /** The records of two agents are different ones. */
  predicate CurrentInv(s: State) {
    && (forall a :: a in s.current ==> s.current[a] < |s.records|)
    && (forall a, b :: a in s.current && b in s.current && a != b ==> s.current[a] != s.current[b])
  }

  /** An installer that has not ended holds its agent's current record, once it has started. */
  predicate InstallerOk(s: State, i: Installer) {
    if i.ended then i.record.Some?
    else i.agent in s.current && (i.record.Some? ==> i.record.value == s.current[i.agent])
  }

  predicate InstallersInv(s: State) {
    forall k :: 0 <= k < |s.installers| ==> InstallerOk(s, s.installers[k])
  }

  predicate RecordOk(r: Record) {
    && 0 <= r.progress <= 100
    && (r.status == Done <==> r.exit == Some(0))
    && (r.status == Done ==> r.progress == 100)
    && (r.status == Error <==> r.error.Some?)
  }

  predicate RecordsInv(s: State) {
    forall i :: 0 <= i < |s.records| ==> RecordOk(s.records[i])
  }

  ghost predicate InstallInv(s: State) {
    CurrentInv(s) && InstallersInv(s) && FlightInv(s) && RecordsInv(s)
  }

  /** Two states in which an agent's record has the same status and its installers are the same. */
  lemma SameFlight(s: State, t: State, agent: string)
    requires FlightOk(s, agent)
    requires IsRunning(t, agent) == IsRunning(s, agent)
    requires forall k :: InFlight(t, agent, k) <==> InFlight(s, agent, k)
    ensures FlightOk(t, agent)
  {
  }

  lemma RequestKeepsFlight(s: State, agent: string, a: string)
    requires InstallInv(s) && !IsRunning(s, agent)
    ensures FlightOk(Next(s, Request(agent, true)), a)
  {
    var t := Next(s, Request(agent, true));
    assert FlightOk(s, a);
    if a == agent {
      assert InFlight(t, a, |s.installers|);
      assert forall j :: InFlight(t, a, j) ==> j == |s.installers| || InFlight(s, a, j);
    } else {
      SameFlight(s, t, a);
    }
  }

  lemma RequestKeepsInstallers(s: State, agent: string)
    requires InstallInv(s) && !IsRunning(s, agent)
    ensures InstallersInv(Next(s, Request(agent, true)))
  {
    var t := Next(s, Request(agent, true));
    assert FlightOk(s, agent);
    forall k | 0 <= k < |s.installers|
      ensures InstallerOk(t, s.installers[k])
    {
      assert InstallerOk(s, s.installers[k]);
      assert !InFlight(s, agent, k);
    }
  }

  lemma RequestKeepsInv(s: State, agent: string)
    requires InstallInv(s) && !IsRunning(s, agent)
    ensures InstallInv(Next(s, Request(agent, true)))
  {
    RequestKeepsInstallers(s, agent);
    forall a
      ensures FlightOk(Next(s, Request(agent, true)), a)
    {
      RequestKeepsFlight(s, agent, a);
    }
  }

  lemma BeginKeepsInv(s: State, k: nat)
    requires InstallInv(s)
    ensures InstallInv(Next(s, Begin(k)))
  {
    var t := Next(s, Begin(k));
    forall a
      ensures FlightOk(t, a)
    {
      assert FlightOk(s, a);
      SameFlight(s, t, a);
    }
    forall j | 0 <= j < |t.installers|
      ensures InstallerOk(t, t.installers[j])
    {
      assert InstallerOk(s, s.installers[j]);
    }
  }

  /** An installer that has not ended holds its agent's record, which is running. */
  lemma HeldIsCurrent(s: State, k: nat)
    requires InstallInv(s) && Holds(s, k)
    ensures var a := s.installers[k].agent;
            && IsRunning(s, a) && s.installers[k].record == Some(s.current[a])
            && forall j :: InFlight(s, a, j) <==> j == k
  {
    assert InFlight(s, s.installers[k].agent, k) && InstallerOk(s, s.installers[k]);
    assert FlightOk(s, s.installers[k].agent);
  }

  lemma OutputKeepsInv(s: State, k: nat, text: string, line: Line)
    requires InstallInv(s)
    ensures InstallInv(Next(s, Output(k, text, line)))
  {
    var t := Next(s, Output(k, text, line));
    if t != s {
      HeldIsCurrent(s, k);
      forall a
        ensures FlightOk(t, a)
      {
        assert FlightOk(s, a);
        SameFlight(s, t, a);
      }
    }
  }

  lemma EndKeepsInv(s: State, k: nat, last: Record)
    requires InstallInv(s) && Holds(s, k) && last.status != Running && RecordOk(last)
    ensures InstallInv(WithEnded(WithHeld(s, k, last), k))
  {
    var t := WithEnded(WithHeld(s, k, last), k);
    HeldIsCurrent(s, k);
    forall a
      ensures FlightOk(t, a)
    {
      assert FlightOk(s, a);
      if a == s.installers[k].agent {
        assert forall j :: InFlight(t, a, j) ==> InFlight(s, a, j);
      } else {
        SameFlight(s, t, a);
      }
    }
  }

  lemma NextKeepsInv(s: State, step: Step)
    requires InstallInv(s)
    ensures InstallInv(Next(s, step))
  {
    match step {
      case Request(agent, command) =>
        if command && !IsRunning(s, agent) {
          RequestKeepsInv(s, agent);
        }
      case Begin(k) => BeginKeepsInv(s, k);
      case Output(k, text, line) => OutputKeepsInv(s, k, text, line);
      case Exit(k, code) =>
        if Holds(s, k) {
          HeldIsCurrent(s, k);
          var r := Held(s, k).(exit := Some(code));
          assert RecordOk(Held(s, k));
          EndKeepsInv(s, k, if code == 0 then r.(status := Done, progress := 100)
                            else r.(status := Error, error := Some(ExitText(code))));
        }
      case Crash(k, error) =>
        if Holds(s, k) {
          HeldIsCurrent(s, k);
          assert RecordOk(Held(s, k));
          EndKeepsInv(s, k, Held(s, k).(status := Error, error := Some(error)));
        }
    }
  }

  lemma {:induction false} RunKeepsInv(steps: seq<Step>)
    ensures InstallInv(Run(steps))
  {
    if |steps| == 0 {
    } else {
      RunKeepsInv(steps[..|steps| - 1]);
      NextKeepsInv(Run(steps[..|steps| - 1]), steps[|steps| - 1]);
    }
  }

  /** Over any interleaving of requests and installers: an agent's record is running exactly when one
      installer for it is in flight, and never are two; progress stays within 0 and 100, and a record is
      done exactly when its command exited with 0, and then shows 100. */
  lemma SingleFlight(steps: seq<Step>, agent: string)
    requires agent in Run(steps).current
    ensures Run(steps).current[agent] < |Run(steps).records|
    ensures var s := Run(steps);
            var r := s.records[s.current[agent]];
            && (r.status == Running <==> exists k :: InFlight(s, agent, k))
            && (forall j, k :: InFlight(s, agent, j) && InFlight(s, agent, k) ==> j == k)
            && 0 <= r.progress <= 100
            && (r.status == Done <==> r.exit == Some(0)) && (r.status == Done ==> r.progress == 100)
  {
    RunKeepsInv(steps);
    var s := Run(steps);
    assert RecordOk(s.records[s.current[agent]]);
    assert FlightOk(s, agent);
  }

  /** A record is replaced only by a request, and only while nothing for its agent is in flight. */
  lemma ReplacedOnlyWhenIdle(s: State, step: Step, agent: string)
    requires InstallInv(s) && agent in s.current
    ensures agent in Next(s, step).current
    ensures Next(s, step).current[agent] != s.current[agent] ==>
              step == Request(agent, true) && NoneInFlight(s, agent)
  {
    assert FlightOk(s, agent);
  }

  /** The record of a run that has ended never changes again: late output cannot reach it. */
  lemma EndedRecordIsFinal(s: State, step: Step, i: nat)
    requires InstallInv(s) && i < |s.records| && s.records[i].status != Running
    ensures i < |Next(s, step).records| && Next(s, step).records[i] == s.records[i]
  {
    if (step.Output? || step.Exit? || step.Crash?) && Holds(s, step.k) {
      HeldIsCurrent(s, step.k);
    }
  }

  /** What an installer has printed stays: the output of a record only grows. */
  lemma OutputOnlyGrows(s: State, step: Step, i: nat)
    requires i < |s.records|
    ensures i < |Next(s, step).records| && s.records[i].output <= Next(s, step).records[i].output
    ensures s.records[i].output != Next(s, step).records[i].output ==>
              step.Output? && Next(s, step).records[i].output == s.records[i].output + [step.text]
  {
  }

  /** How far a line takes the progress: a success line to the end, one about a download by 15 up to 60,
      about an installation by 10 up to 80, about dependencies by 5 up to 40. */
  lemma ProgressOnFields(s: State, k: nat, text: string, line: Line)
    requires Holds(s, k) && text != ""
    ensures var was := Held(s, k);
            var up := match line case Downloading => 15 case Installing => 10 case Resolving => 5 case _ => 0;
            var cap := match line case Downloading => 60 case Installing => 80 case Resolving => 40 case _ => was.progress;
            Held(Next(s, Output(k, text, line)), k)
            == was.(output := was.output + [text],
                    progress := if line == Success then 100 else if was.progress + up <= cap then was.progress + up else cap)
  {
  }

  /** Progress is not monotone: an output line takes it back exactly when it is past that line's cap. */
  lemma ProgressDropsIff(s: State, k: nat, text: string, line: Line)
    requires InstallInv(s) && Holds(s, k) && text != ""
    ensures Held(Next(s, Output(k, text, line)), k).progress < Held(s, k).progress <==>
              || (line == Downloading && Held(s, k).progress > 60)
              || (line == Installing && Held(s, k).progress > 80)
              || (line == Resolving && Held(s, k).progress > 40)
  {
  }

  lemma RunExtend(steps: seq<Step>, step: Step)
    ensures Run(steps + [step]) == Next(Run(steps), step)
  {
    assert (steps + [step])[..|steps|] == steps;
  }

  lemma FirstInstall(agent: string)
    ensures Run([Request(agent, true)] + [Begin(0)])
         == State([NEW_RECORD], map[agent := 0], [Installer(agent, Some(0), false)])
  {
    assert [] + [Request(agent, true)] == [Request(agent, true)];
    RunExtend([], Request(agent, true));
    RunExtend([Request(agent, true)], Begin(0));
  }

  /** A run in which it does: a line about success, then one about a download, takes 100 back to 60. */
  lemma ProgressDrops(agent: string, text: string) returns (steps: seq<Step>)
    requires text != ""
    ensures Run(steps).records == [Record(Running, 100, [text], None, None)]
    ensures Run(steps + [Output(0, text, Downloading)]).records == [Record(Running, 60, [text] + [text], None, None)]
  {
    var begun := [Request(agent, true)] + [Begin(0)];
    steps := begun + [Output(0, text, Success)];
    FirstInstall(agent);
    RunExtend(begun, Output(0, text, Success));
    RunExtend(steps, Output(0, text, Downloading));
    assert [] + [text] == [text];
  }

  // ----- The code -----

  datatype Reply = NoCommand | AlreadyRunning | Started

  class InstallTasks {
    var records: seq<Record>
    var current: map<string, nat>
    var installers: seq<Installer>

    ghost function Snapshot(): State
      reads this
    {
      State(records, current, installers)
    }

    constructor ()
      ensures Snapshot() == START
    {
      records, current, installers := [], map[], [];
    }

    /** start_install and update_agent, which differ only in the words of their errors; for an agent that
        is registered. */
    method StartInstall(agent: string, command: bool) returns (reply: Reply)
      requires InstallInv(Snapshot())
      modifies this
      ensures Snapshot() == Next(old(Snapshot()), Request(agent, command))
      ensures reply == if !command then NoCommand else if old(IsRunning(Snapshot(), agent)) then AlreadyRunning else Started
      ensures reply == AlreadyRunning ==> agent in old(current) && old(records)[old(current)[agent]].status == Running
      ensures reply == Started ==>
                && records == old(records) + [Record(Running, 0, [], None, None)]
                && current == old(current)[agent := |old(records)|]
                && installers == old(installers) + [Installer(agent, None, false)]
      ensures reply != Started ==> records == old(records) && current == old(current) && installers == old(installers)
    {
      if !command {
        return NoCommand;
      }
      if agent in current && records[current[agent]].status == Running {
        return AlreadyRunning;
      }
      current := current[agent := |records|];
      records := records + [NEW_RECORD];
      installers := installers + [Installer(agent, None, false)];
      reply := Started;
    }

    /** _run_install up to its first await */
    method BeginInstall(k: nat)
      requires InstallInv(Snapshot()) && k < |installers| && installers[k].record == None
      modifies this
      ensures Snapshot() == Next(old(Snapshot()), Begin(k)) && Holds(Snapshot(), k)
      ensures records == old(records) && old(installers)[k].agent in current
      ensures installers == old(installers)[k := Installer(old(installers)[k].agent, Some(current[old(installers)[k].agent]),
                                                           old(installers)[k].ended)]
    {
      installers := installers[k := installers[k].(record := Some(current[installers[k].agent]))];
    }

    /** One turn of its loop that finds a line. */
    method ReadLine(k: nat, text: string, line: Line)
      requires Holds(Snapshot(), k)
      modifies this
      ensures Snapshot() == Next(old(Snapshot()), Output(k, text, line)) && Holds(Snapshot(), k)
      ensures var record := old(installers)[k].record.value;
              && (text == "" ==> records == old(records))
              && (text != "" ==>
                    && records == old(records)[record := records[record]]
                    && records[record].output == old(records)[record].output + [text])
    {
      var record := installers[k].record.value;
      if text != "" {
        var r := records[record];
        r := r.(output := r.output + [text]);
        match line {
          case Success => r := r.(progress := 100);
          case Downloading => r := r.(progress := Min(r.progress + 15, 60));
          case Installing => r := r.(progress := Min(r.progress + 10, 80));
          case Resolving => r := r.(progress := Min(r.progress + 5, 40));
          case Problem =>
          case Other =>
        }
        records := records[record := r];
      }
    }

    /** What follows its loop; `code` is None for an exception. */
    method EndInstall(k: nat, code: Option<int>, error: string)
      requires Holds(Snapshot(), k)
      modifies this
      ensures Snapshot() == Next(old(Snapshot()), if code.Some? then Exit(k, code.value) else Crash(k, error))
      ensures var record := old(installers)[k].record.value;
              var was := old(records)[record];
              && installers == old(installers)[k := old(installers)[k].(ended := true)]
              && records == old(records)[record :=
                   match code
                   case None => was.(status := Error, error := Some(error))
                   case Some(n) =>
                     if n == 0 then was.(status := Done, progress := 100, exit := code)
                     else was.(status := Error, error := Some("Exit code " + IntText(n)), exit := code)]
    {
      var record := installers[k].record.value;
      var r := records[record];
      match code {
        case Some(0) => r := r.(status := Done, progress := 100, exit := code);
        case Some(n) => r := r.(status := Error, error := Some(ExitText(n)), exit := code);
        case None => r := r.(status := Error, error := Some(error));
      }
      records := records[record := r];
      installers := installers[k := installers[k].(ended := true)];
    }

    /** All of _run_install, when nothing comes between its steps. */
    method RunInstall(k: nat, lines: seq<(string, Line)>, code: Option<int>, error: string)
      requires InstallInv(Snapshot()) && k < |installers| && installers[k].record == None
      modifies this
      ensures Snapshot() == AfterRun(old(Snapshot()), k, lines, code, error)
    {
      BeginInstall(k);
      for i := 0 to |lines|
        invariant Snapshot() == AfterLines(old(Snapshot()), k, lines[..i]) && Holds(Snapshot(), k)
      {
        assert lines[..i + 1][..i] == lines[..i];
        ReadLine(k, lines[i].0, lines[i].1);
      }
      assert lines[..|lines|] == lines;
      EndInstall(k, code, error);
    }
  }

  /** The installer's steps one after the other. */
  function AfterLines(s: State, k: nat, lines: seq<(string, Line)>): State {
    if |lines| == 0 then Next(s, Begin(k))
    else
      var (text, line) := lines[|lines| - 1];
      Next(AfterLines(s, k, lines[..|lines| - 1]), Output(k, text, line))
  }

  function AfterRun(s: State, k: nat, lines: seq<(string, Line)>, code: Option<int>, error: string): State {
    Next(AfterLines(s, k, lines), if code.Some? then Exit(k, code.value) else Crash(k, error))
  }
}
