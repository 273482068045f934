/** The terminal page: an output buffer (the `innerHTML` of the output
    element), an input field (the `value` of the command input), and the
    handlers that update them. The effect of one dispatched command on the
    buffer is the function `Dispatch`; the methods of `Terminal` are proved
    to perform exactly that effect. */
module Portfolio {
  import opened Text
  import opened Commands

  /** The marker printed in front of every echoed command line. */
  const Prompt: string := "<span class=\"prompt\">$</span> "

  /** The line printed when the page has loaded. */
  const Welcome: string := "Welcome to Jubayer's Terminal Portfolio!\nType 'help' to get started."

  /** The `key` of the keyboard event that submits the input field. */
  const EnterKey: string := "Enter"

  /** The message printed for a normalised command that is not registered:
      never empty, so it is always printed, and it names the command right
      after its fixed opening. */
  function NotFound(command: string): (r: string)
    ensures r != ""
    ensures |r| > 19 + |command| && r[19..19 + |command|] == command
  {
    "Command not found: " + command + "\nType 'help' to see available commands."
  }

  /** The buffer after `printOutput(text)` on buffer `out`: nothing for the
      empty string, otherwise `text` and a line break. A print only appends,
      and a buffer of whole lines stays one. */
  function Printed(out: string, text: string): (r: string)
    ensures out <= r
    ensures r == out <==> text == ""
    ensures text != "" ==> r[|out|..] == text + "\n"
    ensures EndsLine(out) ==> EndsLine(r)
  {
    if text == "" then out else out + text + "\n"
  }

  /** The buffer after `handleCommand(cmd)` on buffer `out`: it is either
      emptied or extended, and any non-blank input other than `clear` prints
      something. */
  function Dispatch(out: string, cmd: string): (r: string)
    ensures r == "" || out <= r
    ensures !AllSpace(cmd) && Normalize(cmd) != Name(Clear) ==> |out| < |r|
  {
    var command := Normalize(cmd);
    if command == "" then out
    else
      var echoed := Printed(out, Prompt + cmd);
      match Lookup(command)
      case Some(c) => Printed(if c == Clear then "" else echoed, ActionResult(c))
      case None => Printed(echoed, NotFound(command))
  }

  /** The text the dispatcher prints after the echo line for a normalised
      command: the entry's result, or the not-found message. */
  function Reply(command: string): string {
    match Lookup(command)
    case Some(c) => ActionResult(c)
    case None => NotFound(command)
  }

  /** The buffer is empty or its last character is a line break. */
  predicate EndsLine(s: string) {
    s == [] || s[|s| - 1] == '\n'
  }

  // -----------------------------------------------------------------------
  // What one dispatch does to the buffer.

  /** Input that is empty or all whitespace changes nothing: no echo and
      no reply. */
  lemma DispatchBlank(out: string, cmd: string)
    requires AllSpace(cmd)
    ensures Dispatch(out, cmd) == out
  {
  }

  /** Any other input except `clear` is echoed raw, behind the prompt, and
      then followed by the reply to its normal form. */
  lemma {:induction false} DispatchEchoesThenReplies(out: string, cmd: string)
    requires !AllSpace(cmd) && Normalize(cmd) != Name(Clear)
    ensures Dispatch(out, cmd) == out + Prompt + cmd + "\n" + Reply(Normalize(cmd)) + "\n"
  {
    var command := Normalize(cmd);
    var echoed := Printed(out, Prompt + cmd);
    Assoc(out, Prompt, cmd);
    assert echoed == out + Prompt + cmd + "\n";
    match Lookup(command)
    case Some(c) =>
      assert Name(c) == command;
      assert Dispatch(out, cmd) == Printed(echoed, ActionResult(c));
    case None =>
      assert Dispatch(out, cmd) == Printed(echoed, NotFound(command));
  }

  /** A registered command other than `clear` keeps the buffer as a prefix
      and appends the echo of the raw input and then the entry's text. */
  lemma {:induction false} DispatchFound(out: string, cmd: string, c: Command)
    requires Lookup(Normalize(cmd)) == Some(c) && c != Clear
    ensures Dispatch(out, cmd) == out + Prompt + cmd + "\n" + ActionResult(c) + "\n"
  {
    assert Normalize(cmd) == Name(c);
    DispatchEchoesThenReplies(out, cmd);
  }

  /** `clear`, in any case and with any padding, leaves the buffer empty:
      its own echo line is wiped with the rest. */
  lemma {:induction false} DispatchClear(out: string, cmd: string)
    requires Normalize(cmd) == Name(Clear)
    ensures Dispatch(out, cmd) == ""
  {
    LookupName(Clear);
  }

  /** An unregistered command appends the echo and then the not-found
      message naming the normalised command. */
  lemma {:induction false} DispatchNotFound(out: string, cmd: string)
    requires !AllSpace(cmd) && Lookup(Normalize(cmd)) == None
    ensures Dispatch(out, cmd) ==
      out + Prompt + cmd + "\n"
      + ("Command not found: " + Normalize(cmd) + "\nType 'help' to see available commands.") + "\n"
  {
    LookupName(Clear);
    DispatchEchoesThenReplies(out, cmd);
  }

  /** The reply depends on the input only through its normal form: padded,
      re-cased spellings of a key print that entry's text after their own
      echo. */
  lemma {:induction false} DispatchIgnoresCaseAndPadding(out: string, p: string, u: string, q: string, c: Command)
    requires AllSpace(p) && AllSpace(q)
    requires ToLower(u) == Name(c) && c != Clear
    ensures Dispatch(out, p + u + q) == out + Prompt + (p + u + q) + "\n" + ActionResult(c) + "\n"
  {
    LookupIgnoresCaseAndPadding(p, u, q, c);
    DispatchFound(out, p + u + q, c);
  }

  /** Between clears the buffer only grows: by the contract of `Dispatch`
      a dispatch other than `clear` that leaves the buffer empty had blank
      input and an empty buffer to begin with. */
  lemma {:induction false} DispatchAppendOnly(out: string, cmd: string)
    requires Normalize(cmd) != Name(Clear)
    ensures out <= Dispatch(out, cmd)
  {
    if AllSpace(cmd) {
      DispatchBlank(out, cmd);
    }
  }

  /** Every print ends with a line break, so a buffer made of whole lines
      stays made of whole lines. */
  lemma {:induction false} DispatchEndsLine(out: string, cmd: string)
    requires EndsLine(out)
    ensures EndsLine(Dispatch(out, cmd))
  {
    var command := Normalize(cmd);
    if command != "" {
      var echoed := Printed(out, Prompt + cmd);
      assert EndsLine(echoed);
      match Lookup(command)
      case Some(c) =>
        assert EndsLine(if c == Clear then "" else echoed);
      case None =>
    }
  }

  // -----------------------------------------------------------------------
  // Several dispatches in a row.

  /** The buffer after dispatching each of `cmds` in turn. */
  function Session(out: string, cmds: seq<string>): string
    decreases |cmds|
  {
    if cmds == [] then out else Session(Dispatch(out, cmds[0]), cmds[1..])
  }

  /** Whatever was printed before a `clear` has no effect on what the
      buffer holds afterwards. */
  lemma {:induction false} SessionAfterClear(out: string, cmds: seq<string>, k: nat)
    requires k < |cmds| && Normalize(cmds[k]) == Name(Clear)
    ensures Session(out, cmds) == Session("", cmds[k + 1..])
    decreases k
  {
    var first := Dispatch(out, cmds[0]);
    assert Session(out, cmds) == Session(first, cmds[1..]);
    if k == 0 {
      DispatchClear(out, cmds[0]);
    } else {
      var rest := cmds[1..];
      assert rest[k - 1] == cmds[k];
      assert rest[k..] == cmds[k + 1..];
      SessionAfterClear(first, rest, k - 1);
    }
  }

  /** A session with no `clear` in it keeps the starting buffer as a
      prefix. */
  lemma {:induction false} SessionAppendOnly(out: string, cmds: seq<string>)
    requires forall i :: 0 <= i < |cmds| ==> Normalize(cmds[i]) != Name(Clear)
    ensures out <= Session(out, cmds)
    decreases |cmds|
  {
    if cmds != [] {
      DispatchAppendOnly(out, cmds[0]);
      SessionAppendOnly(Dispatch(out, cmds[0]), cmds[1..]);
    }
  }

  // -----------------------------------------------------------------------
  // The page state and its handlers.

  class Terminal {
    /** `outputEl.innerHTML` */
    var output: string
    /** `inputEl.value` */
    var input: string

    constructor ()
      ensures output == "" && input == ""
    {
      output := "";
      input := "";
    }

    /** `printOutput(text)` */
    method PrintOutput(text: string)
      modifies this`output
      ensures text == "" ==> output == old(output)
      ensures text != "" ==> output == old(output) + text + "\n"
    {
      if text != "" {
        output := output + text + "\n";
      }
    }

    /** `COMMANDS[name].action()` for the entry `c`. */
    method Run(c: Command) returns (result: string)
      modifies this`output
      ensures result == ActionResult(c)
      ensures c == Clear ==> output == ""
      ensures c != Clear ==> output == old(output)
    {
      match c
      case Help => result := HelpText;
      case About => result := AboutText;
      case Projects => result := ProjectsText;
      case Contact => result := ContactText;
      case Clear =>
        output := "";
        result := "";
    }

    /** `handleCommand(cmd)` */
    method HandleCommand(cmd: string)
      modifies this`output
      ensures output == Dispatch(old(output), cmd)
    {
      var command := Normalize(cmd);
      if command == "" {
        return;
      }
      PrintOutput(Prompt + cmd);
      var entry := Lookup(command);
      if entry.Some? {
        var result := Run(entry.value);
        if result != "" {
          PrintOutput(result);
        }
      } else {
        PrintOutput(NotFound(command));
      }
    }

    /** The `keydown` listener of the input field: Enter dispatches the
        field's value and then empties the field; any other key does
        nothing. */
    method SubmitKey(key: string)
      modifies this
      ensures key == EnterKey ==> output == Dispatch(old(output), old(input)) && input == ""
      ensures key != EnterKey ==> output == old(output) && input == old(input)
    {
      if key == EnterKey {
        HandleCommand(input);
        input := "";
      }
    }

    /** `window.onload`: prints the welcome line. */
    method Load()
      modifies this`output
      ensures output == old(output) + Welcome + "\n"
      ensures EndsLine(old(output)) ==> EndsLine(output)
    {
      PrintOutput(Welcome);
    }
  }
}
