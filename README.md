# Organizer command dispatcher of arma-stats (Dafny model)

arma-stats is a host-game extension. The host calls one entry point, `RVExtension`, with a
command string such as `echo;foobar`. The entry point splits the string on `;`. Field 0 is
the function name and field 1 is its data. The pair goes to the `Organizer`, a small
dispatcher whose only state is an optional `hostname`:

- `setup` stores its data as the hostname and returns nothing;
- `echo` returns its data unchanged;
- every other name returns nothing and changes nothing.

The model has three modules:

- `Wrappers` (wrappers.dfy) holds Rust's `Option`.
- `Organizer` (organizer.dfy) models src/organizer.rs. `Organizer.Organizer` is a class with
  the `hostname` field. Its `Call`, `Setup` and `Echo` methods mirror the Rust methods. `Apply`
  is the command table written as a pure function of the hostname before the call, and the
  lemmas state what the table promises. They cover single calls and whole sequences of calls
  (`FinalHostnameIsLastSetup`).
- `Extension` (extension.dfy) models the parsing and dispatch of `RVExtension` in src/lib.rs.
  `Split` models `str::split(";")`, with `Join` as its inverse. `ParseCommand` keeps fields 0
  and 1. `RvExtension` parses the string and calls the organizer. `FunctionEcho` is the
  `function_echo` test.

The dispatch table in src/organizer.rs holds only `setup` and `echo`, and its state is only
`hostname`. The code has no mission registration, event relay, background worker or `panic`
command, so the model has none either.

## Model

| member | source | states |
|---|---|---|
| Organizer.Organizer.constructor | src/organizer.rs:6-8 | a new organizer has no hostname |
| Organizer.Organizer.Call | src/organizer.rs:10-16 | `setup` sets the hostname to the data and returns None; `echo` returns Some(data) and keeps the hostname; any other name returns None and keeps the hostname; the new state and result agree with `Apply` |
| Organizer.Organizer.Setup | src/organizer.rs:18-21 | afterwards the hostname is Some(data), whatever it was before, and the result is None |
| Organizer.Organizer.Echo | src/organizer.rs:23-25 | returns exactly Some(data); no modifies clause, so no state can change |
| Organizer.SetupLastWriterWins | src/organizer.rs:18-21 | setup(a) then setup(b) leaves hostname Some(b) from any prior state |
| Organizer.SetupIdempotent | src/organizer.rs:18-21 | a second setup with the same data gives the same state and result as the first |
| Organizer.EchoIsIdentity | src/organizer.rs:13 | `echo` returns its data exactly and leaves the hostname unchanged |
| Organizer.UnknownCommandIsNoop | src/organizer.rs:14 | a name other than `setup` or `echo` returns None and leaves the hostname unchanged |
| Organizer.OnlySetupChangesState | src/organizer.rs:11-15 | if a call changes the hostname then the name was `setup`; a `setup` always sets it to its data |
| Organizer.OutputIgnoresState | src/organizer.rs:10-25 | the result of a call is the same for every prior hostname (no handler reads it) |
| Organizer.FinalHostnameIsLastSetup | src/organizer.rs:10-21 | after any sequence of calls the hostname is the data of the last `setup`, or the starting hostname if there was no `setup` |
| Extension.Split | src/lib.rs:30 | at least one field; no field contains ';'; joining the fields with ';' gives back the input |
| Extension.SplitWithoutSeparator | src/lib.rs:30-33 | a string without ';' yields the single field `[s]`, so `input[1]` is out of bounds (the source panics) |
| Extension.SplitAfterField | src/lib.rs:30 | a ';'-free field followed by ';' becomes the first field, and the rest splits on its own |
| Extension.SplitJoin | src/lib.rs:30 | splitting the ';'-join of ';'-free fields gives back the same fields |
| Extension.ParseCommand | src/lib.rs:30-33 | requires a ';'; the name is the text before the first ';' and the data is the text after it up to the next ';' or the end; neither contains ';' |
| Extension.ParseRoundTrip | src/lib.rs:30-33 | for ';'-free n and d, parsing `n;d` yields exactly (n, d) |
| Extension.ParseTruncates | src/lib.rs:30-33 | parsing `n;d;rest` yields (n, d): everything from the second ';' on is dropped |
| Extension.RvExtension | src/lib.rs:30-39 | the output and the organizer's new hostname are those of `call` on the parsed name and data |
| Extension.EchoCommand | src/lib.rs:30-35 | for ';'-free d, the command `echo;d` returns Some(d) and keeps the state |
| Extension.FunctionEcho | tests/lib.rs:5-15 | a fresh organizer given `echo;foobar` produces `foobar` |

## Left out

- The foreign-function surface of `RVExtension` is not modelled: raw pointers, the null-pointer assertion (src/lib.rs:24), `CStr::from_ptr`, and the UTF-8 `unwrap` (src/lib.rs:28). The model starts from a string that is already decoded.
- The copy into the caller's buffer is not modelled (src/lib.rs:36-39). `RvExtension` returns as `output` the value that `strncpy` would copy, and None when nothing is copied. The ignored `_output_size`, the missing NUL terminator and the one-byte buffer the tests pass are buffer-level concerns outside the model.
- The global `static ORGANIZER` (src/lib.rs:15) is not modelled. It is declared immutable, yet `call` takes `&mut self`. The model passes one `Organizer` that the caller owns, and it does not model process-global state or concurrent access.
- Rust lifetimes are not modelled: `call` returns a borrowed `&str`, and the model returns the string value.
- The in-crate copy of the echo test (src/lib.rs:49-59) matches tests/lib.rs:5-15. `FunctionEcho` models both. The `CString` plumbing of the two tests is not modelled.
- `RvExtension` and `ParseCommand`: a command without ';' panics in the source. The model excludes it with `requires ';' in command` and does not model the panic itself. `SplitWithoutSeparator` shows why such a command has no field 1.
