# Inventory generator: a Dafny model of its input validation and inventory shape

The inventory generator is an interactive script. It asks an operator for one
host's address, inventory hostname, SSH port and SSH user, then writes an Ansible
inventory as JSON. Each prompt runs a `while (True)` loop. The loop reads a line
and either accepts it or asks again. An empty line gives the prompt's default.
The collected `Host` record becomes the fixed tree
`openfire_server -> hosts -> <hostname> -> {ansible_host, ansible_port, ansible_user}`.

This project models that core:

- `PyRegex` gives a relational meaning to the `re` constructs the two patterns use
  (character classes, bounded and unbounded repetition, negative look-ahead and
  look-behind, `^`, `$`). `FullMatch` is `re.fullmatch(...) != None`.
- `Patterns` holds the hostname and user-name patterns. It proves that each one
  fully matches exactly the strings its character-by-character reading accepts.
- `PyInt` models base-10 `int(text)`: strip ASCII whitespace, an optional sign,
  ASCII digits, single `_` between digits. It also gives `str(n)` and proves the
  round trip.
- `Answers` holds the per-line decision of each prompt: accept with a value, or ask
  again with the diagnostic the script prints (`Verdict`, `Diagnostic`).
- `Prompts` models the loops as methods over the finite sequence of lines the operator
  types. Each returns the first accepted line's value and the number of lines read. When
  the lines run out it returns `EndOfInput`, where Python's `input()` would raise
  `EOFError`. The port loop nests `input_int` inside the range check, as the script does.
- `Inventory` models the `Host` record, `to_ansible_dict` and the dictionary `generate`
  dumps. `JsonValue` is the JSON-like tree; objects keep insertion order, as Python dicts do.

## Model

| member | source | states |
|---|---|---|
| `PyInt.TrimStart` | scripts/generate-inventory.py:82 | `int()` drops leading whitespace only: the result is a suffix of the text, everything dropped is whitespace, and the result does not start with whitespace |
| `PyInt.TrimEnd` | scripts/generate-inventory.py:82 | `int()` drops trailing whitespace only: the result is a prefix of the text, everything dropped is whitespace, and the result does not end with whitespace |
| `PyInt.ParseShow` | scripts/generate-inventory.py:82 | `int(str(n)) == n` for every integer, negative ones included |
| `PyInt.AcceptedText` | scripts/generate-inventory.py:81-85 | text that `int()` accepts holds at least one decimal digit, and every character is a digit, whitespace, a sign or an underscore |
| `Patterns.HostnamePatternMeaning` | scripts/generate-inventory.py:88 | `re.fullmatch` of `(?!-)[a-z0-9-]{1,63}(?<!-)$` succeeds exactly for a single label: 1 to 63 characters of `[a-z0-9-]`, no hyphen at either end; `$` cannot let a trailing newline through |
| `Patterns.UserPatternMeaning` | scripts/generate-inventory.py:104 | `re.fullmatch` of `^[a-z][-a-z0-9_]*$` succeeds exactly for a lower-case ASCII letter followed by `[-a-z0-9_]*` |
| `Answers.ToLowerAsciiMeaning` | scripts/generate-inventory.py:69 | `abort.lower()` on ASCII text leaves no upper-case letter, changes no other character, and lowering its result again changes nothing |
| `Answers.BoolAnswerSpellings` | scripts/generate-inventory.py:69-72 | a line is true exactly when it spells yes, y or 1 in any case, false exactly when it spells no, n or 0, the default exactly when empty, and asked again otherwise |
| `Answers.IntAnswerMeaning` | scripts/generate-inventory.py:78-85 | every integer's decimal spelling is read as itself; an unreadable line is asked again silently and never raises; any line with a character outside digits, whitespace, signs and `_` is asked again |
| `Answers.HostnameAnswerMeaning` | scripts/generate-inventory.py:91-100 | empty gives the default; a non-empty line is returned unchanged iff the pattern fully matches it; over 253 characters is refused as too long, other mismatches as badly formed; a returned line is one 1-63 character label with no dot |
| `Answers.LengthTestOnlyNamesTheReason` | scripts/generate-inventory.py:94-99 | the pattern already refuses every line over 253 characters, so the length test only changes the message |
| `Answers.UserAnswerMeaning` | scripts/generate-inventory.py:106-113 | empty gives the default; a non-empty line is returned unchanged iff the pattern fully matches it, otherwise refused with the user-name message; a returned name starts with a lower-case letter |
| `Answers.PortAnswerMeaning` | scripts/generate-inventory.py:152-156 | the port prompt as intended (the out-of-range message fixed to ask again, the first finding below) accepts only 1..65535; the empty line's default 22 is in range; a port in range typed in decimal is accepted as itself; an integer out of range is refused with the range message |
| `Answers.PortExample` | scripts/generate-inventory.py:152-153 | the line `2222` selects port 2222 |
| `Prompts.FirstAcceptedIsUnique` | scripts/generate-inventory.py:67-72 | "first accepted line, every earlier line asked again" fixes a loop's outcome, so each loop's contract determines its result |
| `Prompts.InputBool` | scripts/generate-inventory.py:66-72 | returns the answer of the first line that is yes, no or empty, every earlier line having been asked again, or end of input when no line is accepted |
| `Prompts.InputInt` | scripts/generate-inventory.py:74-85 | returns the value of the first line that is empty or an integer, every earlier line having been asked again, or end of input |
| `Prompts.InputHostname` | scripts/generate-inventory.py:87-100 | returns the first accepted line's hostname, every earlier line having been refused; the result is the default or that line, and then a valid label |
| `Prompts.InputUser` | scripts/generate-inventory.py:102-113 | returns the first accepted line's user name, every earlier line having been refused; the result is the default or that line, and then a valid user name |
| `Prompts.InputPort` | scripts/generate-inventory.py:151-156 | the port loop as intended (the corrected member of the first finding below): the nested loop reads up to the first line that is an in-range port or empty, every earlier line having been refused by `int()` or by the range test; it never returns a port outside 1..65535 |
| `Prompts.PortAsksAgainAfterOutOfRange` | scripts/generate-inventory.py:151-156 | an out-of-range integer followed by an in-range port yields that port after two lines |
| `Prompts.PortRunAsWrittenMeaning` | scripts/generate-inventory.py:151-156 | taking the bare call `input_int` at line 152 to resolve, the loop as written agrees with the intended port prompt line for line until its first out-of-range integer: it picks the same port after the same number of lines, runs out of input in the same place, or raises `NameError` on exactly the first line the range test refuses, every earlier line having been asked again |
| `Prompts.AsWrittenRaisesWhereCorrectedAsksAgain` | scripts/generate-inventory.py:153-155 | for any out-of-range integer followed by any in-range port, the loop as written raises `NameError` on the first line, while the intended loop asks again and picks the second line's port |
| `Inventory.HostVarsShape` | scripts/generate-inventory.py:22-26 | the inner dictionary has exactly the keys `ansible_host`, `ansible_port`, `ansible_user`, in that order, each holding its own value |
| `Inventory.AnsibleDictRoundTrip` | scripts/generate-inventory.py:20-27 | the host can be read back from `to_ansible_dict`: address, hostname (the single key), port and user |
| `Inventory.InventoryRoundTrip` | scripts/generate-inventory.py:118 | the host can be read back from the inventory `generate` builds |
| `Inventory.InventoryDecodeExact` | scripts/generate-inventory.py:118 | any tree a host can be read from is exactly that host's inventory, so `generate` adds nothing else |
| `Inventory.LookupHostVar` | scripts/generate-inventory.py:20-27 | for each of the three connection keys, the value at `openfire_server -> hosts -> <hostname> -> key` is the record's field for it: the address as text, the port as a number, the user as text |
| `Inventory.InventoryKeysDistinct` | scripts/generate-inventory.py:118 | no object in the inventory, at any of its four levels, repeats a key |
| `Inventory.InventoryShape` | scripts/generate-inventory.py:118 | the inventory has the single key `openfire_server`, under it only `hosts`, under it only the hostname, under it only the three connection keys, holding address, port (a number) and user |
| `Inventory.DefaultPortAsWrittenIsText` | scripts/generate-inventory.py:17 | as written, `Host()` puts the port into `to_ansible_dict`'s dictionary as the string "22", and no host can be read back from it |
| `Inventory.DefaultPortIsNumber` | scripts/generate-inventory.py:15-18 | with the port an integer, `Host()`'s port is the number 22, the port prompt's default, and the record round-trips |
| `Inventory.HostnameExample` | scripts/generate-inventory.py:91-93 | an empty line at the hostname prompt gives `localhost` |
| `Inventory.UserExample` | scripts/generate-inventory.py:105-113 | `deploy` is accepted as the user name unchanged |
| `Inventory.ExampleInventory` | scripts/generate-inventory.py:20-27 | the host `localhost` at 198.51.100.7, port 2222, user `deploy` gives this exact inventory tree |
| `Inventory.ExampleSession` | scripts/generate-inventory.py:149-160 | an empty hostname, port `2222` and user `deploy` give the host `localhost` and this exact inventory tree |

## Left out

- `reachable` (lines 62-64) runs `ping` through `subprocess`, a foreign process call. The unreachable-host confirmation that uses it is covered only through `input_bool`.
- `initiate_parser` (lines 30-60) is argparse configuration, and its result never shapes the output.
- The file write and `json.dump` in `generate` (lines 116-119) are left out. So are the `FileNotFoundError` guidance and its `exit(0)` (lines 120-133). These are filesystem I/O and a library serialiser. The model stops at the dictionary handed to `json.dump`, not the bytes, indentation or `ensure_ascii` escaping.
- `eprint` (standard error), the stdout `print("hostname: returning default")` at line 92 and the banner prints are console output. A diagnostic is modelled as which message is printed (`Answers.Diagnostic`), not its text. The prompt strings are not modelled.
- The `__main__` flow is not modelled end to end, because it cannot run as written. The helpers are called as bare names (line 143 already raises `NameError`). `generate` is passed the argparse namespace instead of the `Host` (line 168). Only the port loop's decision (lines 151-156) is modelled.
- `input()` is a finite sequence of lines, without their newline. `EOFError` is `EndOfInput`.
- `PyInt.ParseInt`: accepts only ASCII digits and ASCII whitespace. Python's `int()` also accepts other Unicode decimal digits and Unicode whitespace. The interpreter's limit on the number of digits `int()` converts (a `ValueError`, so a silent re-prompt here) is not modelled either.
- `Answers.LowerChar`: maps only ASCII upper-case letters. Python's `str.lower()` maps all of Unicode.
- The length test at line 94 allows up to 253 characters, the limit of a full DNS name, but the pattern at line 88 accepts only a single label of at most 63 characters with no dots. The model follows the code: `HostnameAnswer` accepts one label, and `Answers.LengthTestOnlyNamesTheReason` proves the length test only changes the message.

## Findings

| source | as written | input that shows it | evidently intended | confidence | as-written member | corrected member |
|---|---|---|---|---|---|---|
| scripts/generate-inventory.py:153-155 | the out-of-range message formats `value`, a name not defined in the main flow, so `NameError` ends the run and the `continue` is unreachable; the message also calls 0 allowed, which the test rejects | the line `0` or `70000` at the port prompt | print the range message and ask for the port again | high; not executed | `Prompts.AsWrittenRaisesWhereCorrectedAsksAgain` | `Prompts.PortAsksAgainAfterOutOfRange` |
| scripts/generate-inventory.py:17 | the field is annotated `int` but defaults to the string `"22"`, so `Host().to_ansible_dict()` holds `"ansible_port": "22"` as text | `Host()` with no port argument | the integer 22, as the port prompt's default and the annotation give | medium; not executed | `Inventory.DefaultPortAsWrittenIsText` | `Inventory.DefaultPortIsNumber` |
