/** The command dispatcher of src/organizer.rs: one piece of state, the hostname,
    and a table that routes a command name to its handler. */
module Organizer {
  import opened Wrappers

  /** A command as the dispatcher receives it: a function name and its data. */
  datatype Command = Command(name: string, data: string)

  /** What one call leaves behind: the hostname afterwards and the value handed back. */
  datatype Step = Step(hostname: Option<string>, output: Option<string>)

  /** The command table, as a function of the hostname before the call. */
  function Apply(hostname: Option<string>, name: string, data: string): Step
  {
    if name == "setup" then Step(Some(data), None)
    else if name == "echo" then Step(hostname, Some(data))
    else Step(hostname, None)
  }

  class Organizer {
    var hostname: Option<string>

    /** A fresh organizer knows no hostname yet. */
    constructor ()
      ensures hostname == None
    {
      hostname := None;
    }

    /** Routes `name` to its handler; unknown names yield nothing and change nothing. */
    method Call(name: string, data: string) returns (r: Option<string>)
      modifies this
      ensures name == "setup" ==> hostname == Some(data) && r == None
      ensures name == "echo" ==> hostname == old(hostname) && r == Some(data)
      ensures name != "setup" && name != "echo" ==> hostname == old(hostname) && r == None
      ensures Step(hostname, r) == Apply(old(hostname), name, data)
    {
      if name == "setup" {
        r := Setup(data);
      } else if name == "echo" {
        r := Echo(data);
      } else {
        r := None;
      }
    }

    /** Replaces the hostname with `data`, whatever it was, and returns nothing. */
    method Setup(data: string) returns (r: Option<string>)
      modifies this
      ensures hostname == Some(data)
      ensures r == None
    {
      hostname := Some(data);
      r := None;
    }

    /** Hands `data` back unchanged; reads no state and writes none. */
    method Echo(data: string) returns (r: Option<string>)
      ensures r == Some(data)
    {
      r := Some(data);
    }
  }

  /** `setup` overwrites unconditionally: the second of two setups wins, whatever came before. */
  lemma SetupLastWriterWins(hostname: Option<string>, first: string, second: string)
    ensures Apply(Apply(hostname, "setup", first).hostname, "setup", second) == Step(Some(second), None)
  {
  }

  /** Setting up the same hostname twice leaves the same state and result as doing it once. */
  lemma SetupIdempotent(hostname: Option<string>, data: string)
    ensures Apply(Apply(hostname, "setup", data).hostname, "setup", data) == Apply(hostname, "setup", data)
  {
  }

  /** `echo` returns its data exactly and leaves the hostname as it was. */
  lemma EchoIsIdentity(hostname: Option<string>, data: string)
    ensures Apply(hostname, "echo", data) == Step(hostname, Some(data))
  {
  }

  /** A name outside the table yields no result and no change. */
  lemma UnknownCommandIsNoop(hostname: Option<string>, name: string, data: string)
    requires name != "setup" && name != "echo"
    ensures Apply(hostname, name, data) == Step(hostname, None)
  {
  }

  /** Only `setup` ever changes the hostname, and it always sets it to its data. */
  lemma OnlySetupChangesState(hostname: Option<string>, name: string, data: string)
    ensures Apply(hostname, name, data).hostname != hostname ==> name == "setup"
    ensures name == "setup" ==> Apply(hostname, name, data).hostname == Some(data)
  {
  }

  /** The result of a call never depends on the hostname: no handler reads it. */
  lemma OutputIgnoresState(before: Option<string>, other: Option<string>, name: string, data: string)
    ensures Apply(before, name, data).output == Apply(other, name, data).output
  {
  }

  /** The hostname after making the calls in `cmds` one after another, starting from `hostname`. */
  ghost function FinalHostname(hostname: Option<string>, cmds: seq<Command>): Option<string>
    decreases cmds
  {
    if cmds == [] then hostname
    else FinalHostname(Apply(hostname, cmds[0].name, cmds[0].data).hostname, cmds[1..])
  }

  /** True when no command at index `from` or later is a `setup`. */
  ghost predicate NoSetupFrom(cmds: seq<Command>, from: nat)
  {
    forall j :: from <= j < |cmds| ==> cmds[j].name != "setup"
  }

  /** Over any sequence of calls, the hostname is the data of the last `setup`,
      or the starting hostname when there was none. */
  lemma {:induction false} FinalHostnameIsLastSetup(hostname: Option<string>, cmds: seq<Command>)
    ensures NoSetupFrom(cmds, 0) ==> FinalHostname(hostname, cmds) == hostname
    ensures forall i :: 0 <= i < |cmds| && cmds[i].name == "setup" && NoSetupFrom(cmds, i + 1) ==>
              FinalHostname(hostname, cmds) == Some(cmds[i].data)
    decreases cmds
  {
    if cmds != [] {
      var next := Apply(hostname, cmds[0].name, cmds[0].data).hostname;
      var rest := cmds[1..];
      FinalHostnameIsLastSetup(next, rest);
      if NoSetupFrom(cmds, 0) {
        assert NoSetupFrom(rest, 0);
      }
      forall i | 0 <= i < |cmds| && cmds[i].name == "setup" && NoSetupFrom(cmds, i + 1)
        ensures FinalHostname(hostname, cmds) == Some(cmds[i].data)
      {
        if i == 0 {
          assert NoSetupFrom(rest, 0);
        } else {
          assert rest[i - 1] == cmds[i];
          assert NoSetupFrom(rest, i);
        }
      }
    }
  }
}
