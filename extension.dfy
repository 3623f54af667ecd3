/** The command-parsing part of the host entry point `RVExtension` in src/lib.rs:
    the wire string is split on ';', the first field names the function, the second
    carries its data, and the pair is handed to the organizer. */
module Extension {
  import opened Wrappers
  import Organizer

  /** Joins fields with ';' between them; the inverse of `Split`. */
  function Join(fields: seq<string>): string
    requires |fields| >= 1
  {
    if |fields| == 1 then fields[0] else fields[0] + ";" + Join(fields[1..])
  }

  /** The fields of `s` between occurrences of ';', as Rust's `str::split(";")` yields
      them: there is always at least one field, fields may be empty, no field holds a
      ';', and joining them back gives `s`. */
  function Split(s: string): (fields: seq<string>)
    ensures |fields| >= 1
    ensures forall i :: 0 <= i < |fields| ==> ';' !in fields[i]
    ensures Join(fields) == s
  {
    if s == [] then [""]
    else
      var rest := Split(s[1..]);
      if s[0] == ';' then
        assert ([""] + rest)[1..] == rest;
        [""] + rest
      else
        var fields := [[s[0]] + rest[0]] + rest[1..];
        assert fields[1..] == rest[1..];
        assert |rest| > 1 ==> Join(rest) == rest[0] + ";" + Join(rest[1..]);
        assert |rest| > 1 ==> [s[0]] + rest[0] + ";" + Join(rest[1..]) == [s[0]] + (rest[0] + ";" + Join(rest[1..]));
        assert s == [s[0]] + s[1..];
        fields
  }

  /** A string with no ';' splits into the one field that is the whole string, so the
      entry point's `input[1]` is out of bounds there and the call panics. */
  lemma {:induction false} SplitWithoutSeparator(s: string)
    requires ';' !in s
    ensures Split(s) == [s]
  {
    if s != [] {
      SplitWithoutSeparator(s[1..]);
    }
  }

  /** A field free of ';' followed by ';' splits off as the first field. */
  lemma {:induction false} SplitAfterField(field: string, tail: string)
    requires ';' !in field
    ensures Split(field + ";" + tail) == [field] + Split(tail)
  {
    if field != [] {
      SplitAfterField(field[1..], tail);
      assert (field + ";" + tail)[0] == field[0] != ';';
      assert (field + ";" + tail)[1..] == field[1..] + ";" + tail;
      assert [field[0]] + field[1..] == field;
    } else {
      assert field + ";" + tail == [';'] + tail;
      assert (field + ";" + tail)[1..] == tail;
    }
  }

  /** Round trip: splitting joined ';'-free fields gives the fields back. */
  lemma {:induction false} SplitJoin(fields: seq<string>)
    requires |fields| >= 1
    requires forall i :: 0 <= i < |fields| ==> ';' !in fields[i]
    ensures Split(Join(fields)) == fields
  {
    if |fields| == 1 {
      SplitWithoutSeparator(fields[0]);
    } else {
      SplitJoin(fields[1..]);
      SplitAfterField(fields[0], Join(fields[1..]));
    }
  }

  /** Splits the wire string and keeps fields 0 and 1. The name is the text before the
      first ';'; the data is the text after it, up to the second ';' or the end. */
  function ParseCommand(s: string): (c: Organizer.Command)
    requires ';' in s
    ensures ';' !in c.name && ';' !in c.data
    ensures c.name + ";" + c.data <= s
    ensures |s| == |c.name| + 1 + |c.data| || s[|c.name| + 1 + |c.data|] == ';'
  {
    var fields := Split(s);
    if |fields| == 1 then
      assert false;
      Organizer.Command("", "")
    else
      assert s == fields[0] + ";" + Join(fields[1..]);
      assert |fields| > 2 ==> Join(fields[1..]) == fields[1] + ";" + Join(fields[2..]);
      Organizer.Command(fields[0], fields[1])
  }

  /** Round trip: a name and data free of ';' joined by one ';' parse back to themselves. */
  lemma ParseRoundTrip(name: string, data: string)
    requires ';' !in name && ';' !in data
    ensures ParseCommand(name + ";" + data) == Organizer.Command(name, data)
  {
    SplitAfterField(name, data);
    SplitWithoutSeparator(data);
  }

  /** Everything from a second ';' on is dropped. */
  lemma ParseTruncates(name: string, data: string, rest: string)
    requires ';' !in name && ';' !in data
    ensures ParseCommand(name + ";" + data + ";" + rest) == Organizer.Command(name, data)
  {
    SplitAfterField(name, data + ";" + rest);
    SplitAfterField(data, rest);
    assert name + ";" + data + ";" + rest == name + ";" + (data + ";" + rest);
  }

  /** The entry point without its buffer handling: parse the wire string and dispatch it
      to the organizer. `output` is what gets copied to the caller (nothing when None). */
  method RvExtension(organizer: Organizer.Organizer, command: string) returns (output: Option<string>)
    requires ';' in command
    modifies organizer
    ensures var c := ParseCommand(command);
      Organizer.Step(organizer.hostname, output) == Organizer.Apply(old(organizer.hostname), c.name, c.data)
  {
    var input := Split(command);
    var functionName := input[0];
    var functionData := input[1];
    output := organizer.Call(functionName, functionData);
  }

  /** End to end: an `echo` command hands its data back untouched, whatever the state. */
  lemma EchoCommand(hostname: Option<string>, data: string)
    requires ';' !in data
    ensures var c := ParseCommand("echo;" + data);
      Organizer.Apply(hostname, c.name, c.data) == Organizer.Step(hostname, Some(data))
  {
    assert "echo"[0] != ';' && "echo"[1] != ';' && "echo"[2] != ';' && "echo"[3] != ';';
    ParseRoundTrip("echo", data);
    assert "echo;" + data == "echo" + ";" + data;
  }

  /** The test `function_echo`: a fresh organizer given "echo;foobar" answers "foobar". */
  method FunctionEcho() returns (out: Option<string>)
    ensures out == Some("foobar")
  {
    var organizer := new Organizer.Organizer();
    EchoCommand(organizer.hostname, "foobar");
    assert "echo;" + "foobar" == "echo;foobar";
    out := RvExtension(organizer, "echo;foobar");
  }
}
