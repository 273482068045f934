# Terminal portfolio — a verified model

The repository is a personal portfolio page that imitates a terminal. All of
its logic is in `docs/script.js`:

- a registry `COMMANDS` of five entries (`help`, `about`, `projects`,
  `contact`, `clear`), each with an action;
- `printOutput`, which appends a line to the output element;
- `handleCommand`, which normalises the typed line, echoes it behind a
  prompt and prints the entry's result or a not-found message;
- a `keydown` listener that dispatches the input field on Enter and then
  empties the field;
- an `onload` hook that prints a welcome line.

Once the page is abstracted away, the state is two strings: the output
buffer (`outputEl.innerHTML`) and the input field (`inputEl.value`).

## Layout

- `text.dfy`, module `Text`: `trim()` and `toLowerCase()` as pure functions
  (`LeadingSpaces`, `TrailingSpaces`, `Trim`, `LowerChar`, `ToLower`,
  `Normalize`).
  `Trim` has a reference definition: `TrimOfPadded` shows that whitespace
  around a trimmed core is removed, and `TrimDecomposes` shows that every
  string is its trim with whitespace around it. Together they give the
  lemmas that `Normalize` ignores padding and ASCII case.
- `commands.dfy`, module `Commands`: the registry as a datatype `Command`,
  its keys (`Name`), its unused `description` fields (`Description`), the
  four fixed texts, what each action returns (`ActionResult`), the map of
  own keys (`Registry`) and the lookup (`Lookup`).
- `portfolio.dfy`, module `Portfolio`:
  - the prompt, welcome and not-found texts;
  - `Printed`, which is what `printOutput` does to a buffer;
  - `Dispatch`, which is what `handleCommand` does to a buffer;
  - `Session`, a run of several dispatches;
  - lemmas about those functions;
  - the class `Terminal` with fields `output` and `input`. Its methods
    `PrintOutput`, `Run` (one entry's action), `HandleCommand`, `SubmitKey`
    and `Load` are proved to have exactly the effect of those functions.

The event listener is modelled as the method `SubmitKey(key)`. The load hook
is modelled as the method `Load`.

The model follows what `docs/script.js` does, including what it does not do:
- line 65 inserts the echoed input into the output raw, with no HTML
  escaping;
- URLs and e-mail addresses in the printed texts are not turned into links;
- newlines are not turned into `<br>`;
- there is no input gate and no delay before a command runs;
- there is no `--help` alias: only the five keys are found;
- line 48 empties the whole output element, so `clear` leaves nothing on
  screen, not even its own echo line.

## Model

| member | source | states |
|---|---|---|
| `Text.IsSpace` | docs/script.js:62 | the characters `trim()` strips: the ECMAScript WhiteSpace and LineTerminator code points; none of them is an ASCII letter |
| `Text.LeadingSpaces` | docs/script.js:62 | the count of characters that the front of `trim()` drops: all of them are whitespace and the next character is not |
| `Text.TrailingSpaces` | docs/script.js:62 | the count of characters that the back of `trim()` drops: all of them are whitespace and the character before them is not |
| `Text.LeadingSpacesUnique` | docs/script.js:62 | that count is the only position with whitespace before it and none at it |
| `Text.TrailingSpacesUnique` | docs/script.js:62 | the same for the end of the string |
| `Text.Trim` | docs/script.js:62 | `cmd.trim()` has no whitespace at either end, is no longer than `cmd`, and is empty exactly when `cmd` is all whitespace |
| `Text.TrimOfPadded` | docs/script.js:62 | reference definition of trim: for whitespace `p`, `q` and a core `m` with no whitespace at either end, `Trim(p + m + q) == m` |
| `Text.TrimDecomposes` | docs/script.js:62 | every string is its trim with whitespace before and after it |
| `Text.TrimIgnoresPadding` | docs/script.js:62 | adding whitespace around a string does not change its trim |
| `Text.TrimIdempotent` | docs/script.js:62 | trimming twice is trimming once |
| `Text.LowerChar` | docs/script.js:62 | an ASCII capital moves to its lower-case letter (code point + 32); every other character is unchanged; no capital is left |
| `Text.ToLower` | docs/script.js:62 | `toLowerCase()` keeps the length and leaves no ASCII capital |
| `Text.ToLowerKeepsSpace` | docs/script.js:62 | lower-casing a string leaves it all whitespace exactly when it was |
| `Text.ToLowerKeepsTrimmed` | docs/script.js:62 | lower-casing neither adds nor removes whitespace at the ends |
| `Text.TrimToLower` | docs/script.js:62 | trimming and lower-casing commute |
| `Text.Normalize` | docs/script.js:62 | `cmd.trim().toLowerCase()` has no whitespace at either end and no ASCII capital, is no longer than `cmd`, and is empty exactly when `cmd` is blank |
| `Text.NormalizeIgnoresCaseAndPadding` | docs/script.js:62 | adding whitespace around a command or changing its case does not change its normal form |
| `Text.NormalFormIsFixed` | docs/script.js:62 | a string with no whitespace at either end and no ASCII capital is its own normal form |
| `Text.NormalizeIdempotent` | docs/script.js:62 | normalising twice is normalising once |
| `Commands.Name` | docs/script.js:6-52 | the key of each `COMMANDS` entry: a non-empty word of lower-case ASCII letters, `clear` only for the `clear` entry |
| `Commands.RegistryKeys` | docs/script.js:6-52 | `Registry`, the own keys of `COMMANDS`, holds exactly the five keys, each mapped to the entry it names |
| `Commands.ActionResult` | docs/script.js:6-52 | an action returns the empty string exactly when it is `clear`'s |
| `Commands.Lookup` | docs/script.js:67 | a name is found exactly when it is one of the five keys, and then the entry found has that key |
| `Commands.LookupName` | docs/script.js:6-52 | looking up an entry's key finds that entry |
| `Commands.NamesAreNormal` | docs/script.js:6-52 | every key is already trimmed and lower-case, so normalisation can reach it |
| `Commands.LookupIgnoresCaseAndPadding` | docs/script.js:62-68 | any spelling of a key with other letter case and whitespace around it finds that key's entry |
| `Portfolio.NotFound` | docs/script.js:71-72 | the not-found message is never empty, so it is always printed, and it names the normalised command right after `Command not found: ` |
| `Portfolio.Printed` | docs/script.js:54-58 | the buffer after `printOutput(text)`: it keeps the old buffer as a prefix, is unchanged exactly when `text` is empty, otherwise gains `text` and a line break, and stays line-terminated if it was empty or line-terminated |
| `Portfolio.Dispatch` | docs/script.js:61-74 | the buffer after `handleCommand(cmd)`: it is either emptied or extended, and non-blank input other than `clear` always makes it longer |
| `Portfolio.DispatchBlank` | docs/script.js:62-63 | blank input leaves the buffer unchanged: no echo and no reply |
| `Portfolio.DispatchEchoesThenReplies` | docs/script.js:61-74 | non-blank input other than `clear` appends the prompt, the raw input and a line break, then the reply to the normal form and a line break |
| `Portfolio.DispatchFound` | docs/script.js:65-69 | a registered command other than `clear` appends exactly its echo line and then the entry's fixed text and a line break |
| `Portfolio.DispatchClear` | docs/script.js:45-69 | `clear`, in any case and with any padding, leaves the buffer empty, including its own echo line |
| `Portfolio.DispatchNotFound` | docs/script.js:70-72 | an unknown command appends its echo line, then `Command not found: ` with the normalised command, the help hint and a line break |
| `Portfolio.DispatchIgnoresCaseAndPadding` | docs/script.js:62-69 | a padded, re-cased spelling of a key appends its own raw echo and then the same entry text as the key itself |
| `Portfolio.DispatchAppendOnly` | docs/script.js:54-74 | every dispatch except `clear` keeps the old buffer as a prefix |
| `Portfolio.DispatchEndsLine` | docs/script.js:54-74 | if the buffer is empty or ends with a line break, it still is after any dispatch |
| `Portfolio.SessionAfterClear` | docs/script.js:45-74 | after a run of commands, the buffer depends only on the commands after the last `clear` in the run |
| `Portfolio.SessionAppendOnly` | docs/script.js:54-74 | a run of commands without `clear` keeps the starting buffer as a prefix |
| `Portfolio.Terminal.constructor` | docs/script.js:3-4 | the page starts with an empty output buffer and an empty input field |
| `Portfolio.Terminal.PrintOutput` | docs/script.js:54-59 | printing the empty string changes nothing; otherwise the buffer becomes the old buffer, the text and one line break |
| `Portfolio.Terminal.Run` | docs/script.js:6-52 | an action returns its entry's text; `clear` empties the buffer, the other actions leave it unchanged |
| `Portfolio.Terminal.HandleCommand` | docs/script.js:61-74 | the new buffer is `Dispatch` of the old buffer and the command |
| `Portfolio.Terminal.SubmitKey` | docs/script.js:76-81 | on Enter the old field value is dispatched and the field becomes empty; any other key changes neither the buffer nor the field |
| `Portfolio.Terminal.Load` | docs/script.js:84-87 | the welcome text and a line break are appended to the buffer |

## Left out

- Page plumbing is not modelled. This covers `getElementById` (lines 3-4), scrolling to the bottom after a print (line 57), `focus()` (line 86) and how the listener and the load hook are registered.
- The page's initial markup is not part of this model. `Terminal.constructor` therefore starts from an empty buffer and an empty field.
- Typing into the field is the browser's default action, not this code. A client sets `Terminal.input` directly.
- The browser re-serialises `innerHTML` when text is appended to it. The model treats the buffer as a plain string, so `Prompt + cmd` is stored as written, even when the input holds markup.
- `Text.ToLower`: folds only ASCII `A`–`Z`. `toLowerCase()` also folds other Unicode letters. Lookup is not affected: every non-ASCII letter lower-cases to something that is not in any key, or, for the Kelvin sign, to `k`, and no key contains `k`. The text of the not-found message can differ for non-ASCII input.
- `Text.IsSpace` covers only the fixed ECMAScript WhiteSpace and LineTerminator code points that `trim()` strips. It is exact for the Unicode version whose space separators are U+0020, U+00A0, U+1680, U+2000–U+200A, U+202F, U+205F and U+3000.
- `Commands.Lookup`: follows only the registry's own five keys. In the source, `COMMANDS[command]` at line 67 also finds names inherited from the object prototype. Line 62 lower-cases the command first, so only all-lower-case inherited names get there: `constructor` and `__proto__`. For those two, line 68 calls an `action` that is undefined and throws a `TypeError` after the echo line is printed. The error also leaves the `keydown` listener, so line 79 never runs and the input field keeps its value. The model prints the not-found message for them instead, and `Terminal.SubmitKey` empties the field. Mixed-case names such as `toString` lower-case to keys that `COMMANDS` does not have, so the source prints the not-found message for them, as the model does.
- `Portfolio.Terminal.SubmitKey`: empties the field after every Enter. In the source the field is not emptied when the command is `constructor` or `__proto__`, because the error thrown at line 68 skips line 79 (see the `Commands.Lookup` line above).
