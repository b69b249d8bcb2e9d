# lash: a verified model of the terminal-shell prototype's core

lash is a prototype terminal-shell front end written in Python. It draws a centred
splash, paints rectangular views with raw ANSI escape sequences, and runs a prompt
loop that only recognises `exit`. This project models the deterministic part of
`lash.py` in Dafny and proves properties of it. Everything the program prints is
treated as data. A method returns the text its Python counterpart writes to
standard output: `print(s, end='')` contributes `s` and `print('')` contributes
`"\n"`. Where the Python code can raise, the result also carries an `Outcome`
(`Completed` or `Raised(exception)`).

Files:

- `pytext.dfy` (module `PyText`) holds the Python operations the code depends on:
  - `len(range(n))` as `RangeLen`.
  - `s * n` as `Times`.
  - `"".join` as `Join`.
  - `//` as `FloorDiv`.
  - `str(int)` as `Str`, with a reference decimal decoder `ParseDecimal` for the round trip.
- `lash.dfy` (module `Lash`) holds the rest:
  - `Color` as a datatype.
  - `View` as a class whose fields `SetBg`/`SetFg` overwrite. `State()` is a snapshot of those fields.
  - `Eye` as the named constructor `View.Eye`. The constant `kind` selects Eye's `update` override, the way Python's dispatch does.
  - `Shell` as a class.
  - `show_splash`, the prompt loop and the `__main__` block as methods.
  - Each rendering method is proved against a specification function (`PlainTrace`, `EyeEmission`, `Chain`, `SplashTrace`, `PromptEmission`, `LashEmission`). The state-changing methods (`SetBg`, `SetFg`) and the one-line writers (`Enter`, `Leave`) state their new state or their output directly.

The escape sequences are modelled exactly as the code writes them, including
forms a terminal would read differently:

- The cursor move is `ESC[{x},{y}H`: x first, separated by a comma.
- The home sequence is `ESC[0,0H`.
- View.update writes `ESC[48;5;196m` once before its rows.
- The reset is `ESC[0m`, SGR 0 in section 8.3.117 of ECMA-48.

## Model

| member | source | states |
|---|---|---|
| `Lash.Color.IsDefault` | lash.py:54-58 | true exactly for the sentinel `Color.Default` (value -1); never true for a value >= 0 |
| `Lash.ColorSgr` | lash.py:87-93 | empty exactly when the colour is the default; otherwise `ESC[{param};5;` + digits + `m`, where the digits are in canonical form (no leading zero, no `-0`) and decode back to the colour's value, so by `PyText.CanonicalDecimalIsStr` they are exactly `str(value)` |
| `Lash.NeverEmitsDefaultIndex` | lash.py:87-93 | no colour ever makes begin_bg/begin_fg write the index -1 (`;5;-1m`) |
| `Lash.View.constructor` | lash.py:70-79 | a new View has the given geometry, is not focused, has bg/fg Default, selected bg Black and selected fg Red |
| `Lash.View.Eye` | lash.py:117-122 | `Eye(width)` is at (0, 0) with height 5, bg Black and fg Red; other fields as the base constructor sets them |
| `Lash.View.SetBg` | lash.py:81-82 | the new state is the old one with only `bg` replaced |
| `Lash.View.SetFg` | lash.py:84-85 | the new state is the old one with only `fg` replaced |
| `Lash.View.BeginBg` | lash.py:87-89 | writes nothing exactly when bg is default; otherwise exactly `ESC[48;5;{value}m` |
| `Lash.View.BeginFg` | lash.py:91-93 | writes nothing exactly when fg is default; otherwise exactly `ESC[38;5;{value}m` |
| `Lash.View.UpdateAsView` | lash.py:95-113 | the output is the preamble (cursor move to (x, y), SGR 196) followed by the height + 1 row groups (none when height < 0), group i drawn at row y + i; the view is not modified, so a second call writes the same text |
| `Lash.PlainTraceRows` | lash.py:100-113 | the same output read one row per step: the row at y, then the rows from y + 1 onwards, as the loop's `y = y + 1` advances |
| `Lash.DefaultColorsRow` | lash.py:101-112 | with both colours default, a row group contains no colour SGR at all |
| `Lash.View.UpdateAsEye` | lash.py:124-143 | starts at row 0 whatever y is; raises TypeError (str minus int) exactly when height >= 0, after writing two cursor moves, the reset, the colours and `+` |
| `Lash.ConstructedEyeRaises` | lash.py:117-138 | an Eye as constructed always raises on its first row, after writing `+` |
| `Lash.View.Update` | lash.py:95-143 | `view.update()` runs View's renderer for a plain view and Eye's override for an Eye |
| `Lash.ChainAppend` | lash.py:163-164 | running a list of calls is running its front, then its back unless the front raised |
| `Lash.ChainCompleted` | lash.py:163-164 | when no call raises, the outputs are joined in order and the block completes |
| `Lash.ChainStopsAt` | lash.py:163-164 | the first call that raises ends the block: the outputs up to and including it, and its exception |
| `Lash.RenderPlainInOrder` | lash.py:163-164 | plain views are all drawn, in list order |
| `Lash.RenderStopsAtEye` | lash.py:163-164 | an Eye in the list raises and ends rendering: the views before it are drawn, those after it are not |
| `Lash.Shell.constructor` | lash.py:146-149 | a new Shell has cursor mode on, no views and empty prompt input |
| `Lash.Shell.Enter` | lash.py:151-152 | writes `ESC[?1049h` |
| `Lash.Shell.Leave` | lash.py:154-155 | writes `ESC[?1049l` |
| `Lash.Shell.Render` | lash.py:157-164 | writes `ESC[0,0H========`, then runs every view's update in list order, propagating the first exception |
| `PyText.FloorDiv` | lash.py:32-33 | Python's `//` with a positive divisor: b*q <= a < b*q + b (floor, even for negative a) |
| `Lash.StartCol` | lash.py:32 | the left margin start_col leaves 0 or 1 extra column on the right of the 49-wide splash |
| `Lash.StartRow` | lash.py:33 | the top margin start_row leaves 0 or 1 extra row below the 12-high splash |
| `Lash.SplashOn80By24` | lash.py:32-33 | on an 80x24 terminal the splash starts at column 15, row 6 |
| `PyText.Times` | lash.py:45 | `s * n` has length len(s) * n (zero for n <= 0); for a one-character s every character is that character |
| `PyText.TimesAt` | lash.py:45 | copy k of s (for each k < n) sits at offset k * len(s) of `s * n`: the result is n copies of s end to end |
| `PyText.TimesAdd` | lash.py:45 | `s * (a + b)` is `s * a` followed by `s * b` |
| `Lash.PadLinesEach` | lash.py:44-46 | every splash line is preceded by the same `' ' * start_col` padding |
| `Lash.ShowSplash` | lash.py:28-47 | writes `ESC[0,0H`, then start_row newlines (none if negative), then each line after start_col spaces (none if negative), then one newline |
| `PyText.Str` | lash.py:89 | `str(n)` is non-empty, all digits for n >= 0, and `-` followed by digits for n < 0 |
| `PyText.StrCanonical` | lash.py:89 | `str(n)` has no leading zero (non-negative n), its first digit after `-` is not 0 (negative n), and it is in canonical decimal form |
| `PyText.CanonicalDecimalIsStr` | lash.py:89 | a canonical decimal that decodes to n is exactly `str(n)`: no other spelling of n qualifies |
| `PyText.StrRoundTrip` | lash.py:89 | the digits an f-string writes for an int decode back to that int |
| `PyText.StrInjective` | lash.py:89 | distinct ints are written as distinct strings |
| `Lash.FirstExit` | lash.py:186-190 | the index of the first line exactly equal to `exit`, with no trimming, or none if no line is |
| `Lash.PromptLoop` | lash.py:186-190 | one `$ ` per input() call; completes at the first `exit` line; raises EOFError when the lines run out first |
| `Lash.PromptScenario` | lash.py:186-190 | `"  "`, `"ls"`, `"exit"` gives three prompts and completes; `" exit"`, `"exit "` gives three prompts and EOFError |
| `Lash.RunLash` | lash.py:172-192 | the program writes enter, the splash, the render banner, View(0, 0, 5, 3) in red/black, the prompts, then leave only if the loop completed |
| `Lash.LeavesAltScreenOnlyOnExit` | lash.py:172-192 | the output ends with the leave sequence exactly when some input line is `exit` |

## Left out

- `getch` (lash.py:9-18) is not modelled. It is raw-mode termios I/O on a file descriptor and is never called.
- `get_cols`/`get_rows` (lash.py:20-26) run `tput` in a subprocess and are not modelled. `ShowSplash` and `RunLash` take the terminal size as parameters. A failed or non-numeric `tput` output is therefore not modelled.
- `Shell.Render` omits the `get_cols()`/`get_rows()` calls at lash.py:160-161, because their results are never used.
- Reading `ascii.color` (lash.py:35-37) is not modelled. The lines `readlines()` returns are a parameter, and a missing file is not modelled.
- `time.sleep(1)` and `flush=True` have no effect on the written text and are left out.
- Interleaving with other writers to the terminal is left out.
- `input()` is modelled by a sequence of lines, without their newline. Running out of lines raises EOFError, just as input() does at end of file.
- What a terminal does with the sequences is out of scope: clipping, wrapping, and reading the comma cursor move. Only the written strings are modelled.
- `CloseButton` (lash.py:167-169) is not modelled. Its constructor skips the base constructor and only sets `_focused`, so it has no behaviour to state.
- `_focused`, `_selected_bg`, `_selected_fg`, `_cursor_mode` and `_prompt_input` are set but never read. The model stores them and nothing else.
- Python's dynamic typing is not modelled. Geometry fields and colour values are integers, and no other argument types are considered.
- `PyText.FloorDiv`: requires a positive divisor, because lash.py only divides by 2. Python's `//` with a negative or zero divisor is not modelled.
- `Lash.View.UpdateAsEye`: does not model a correct border row (`+`, width - 2 dashes, `+`). The code never writes one: `'-' * self._width - 2` subtracts an int from a str and raises. The model records exactly that.
- Where a conventional terminal shell would behave differently, the model follows the code:
  - the prompt loop compares `exit` without trimming;
  - the cursor move is `ESC[{x},{y}H`, not a 1-based `ESC[row;colH`;
  - no hide- or show-cursor sequence is written;
  - the alternate screen is not left on EOFError;
  - views are drawn at x and y as given, not at x + 1 and y + 1.
