/**
 The deterministic core of lash.py, a terminal-shell prototype.

 Everything the program prints is treated as data: a method or function that
 models a piece of code returns the text that code writes to standard output
 (`print(s, end='')` contributes `s`, `print('')` contributes "\n"). Where the
 code can raise, the result also says how it ended (`Outcome`).
 */
module Lash {
  import opened PyText

  // ---------------------------------------------------------------------------
  // Emitted text
  // ---------------------------------------------------------------------------

  /** The escape character, written `\033` or `\u001B` in lash.py. */
  const Esc: char := '\U{1B}'

  /** `ESC[0m`: SGR 0, reset all attributes (section 8.3.117 of ECMA-48). */
  const Reset: string := [Esc] + "[0m"

  /** `ESC[48;5;196m`, which View.update writes once before its rows. */
  const PreambleSgr: string := [Esc] + "[48;5;196m"

  /** `ESC[0,0H`, written by show_splash and at the start of Shell.render. */
  const Home: string := [Esc] + "[0,0H"

  /** What Shell.render writes before drawing its views. */
  const RenderBanner: string := Home + "========"

  /** Switch to and from the alternate screen buffer (private mode 1049). */
  const AltScreenEnter: string := [Esc] + "[?1049h"
  const AltScreenLeave: string := [Esc] + "[?1049l"

  const Prompt: string := "$ "
  const ExitCommand: string := "exit"

  /** The SGR parameters that select a 256-colour background and foreground. */
  const BgParam: string := "48"
  const FgParam: string := "38"

  /** The fixed size of the splash block ascii.color. */
  const SplashWidth: int := 49
  const SplashHeight: int := 12

  /**
   The cursor move that View.update and Eye.update write: `ESC[{x},{y}H`,
   x first and a comma between, exactly as the code formats it.
   */
  function CursorMove(x: int, y: int): string
  {
    [Esc] + "[" + Str(x) + "," + Str(y) + "H"
  }

  // ---------------------------------------------------------------------------
  // Exceptions
  // ---------------------------------------------------------------------------

  datatype PyException = TypeError(message: string) | EOFError

  /** How a piece of code ended: normally, or by raising. */
  datatype Outcome = Completed | Raised(exception: PyException)

  /** The text a call wrote to standard output, and how it ended. */
  datatype Emission = Emission(trace: string, outcome: Outcome)

  /** The exception `'-' * width - 2` raises: a str minus an int. */
  const StrMinusInt: PyException := TypeError("unsupported operand type(s) for -: 'str' and 'int'")

  // ---------------------------------------------------------------------------
  // Color
  // ---------------------------------------------------------------------------

  /** A palette index; -1 is the sentinel for the terminal's own default colour. */
  datatype Color = Color(value: int)
  {
    static const Default: Color := Color(-1)
    static const Black: Color := Color(0)
    static const Red: Color := Color(1)

    function IsDefault(): (b: bool)
      ensures b <==> this == Default
      ensures value >= 0 ==> !b
    {
      value == -1
    }
  }

  /**
   The SGR that View.begin_bg (param "48") or View.begin_fg (param "38")
   writes for colour c: nothing for the default colour, otherwise
   `ESC[{param};5;{value}m`, whose number decodes back to the colour's value.
   */
  function ColorSgr(param: string, c: Color): (s: string)
    ensures s == [] <==> c.IsDefault()
    ensures !c.IsDefault() ==>
      var prefix := [Esc] + "[" + param + ";5;";
      |s| > |prefix| + 1 && s[..|prefix|] == prefix && s[|s| - 1] == 'm' &&
      CanonicalDecimal(s[|prefix|..|s| - 1]) && ParseDecimal(s[|prefix|..|s| - 1]) == Some(c.value)
  {
    if c.IsDefault() then []
    else
      var prefix := [Esc] + "[" + param + ";5;";
      var s := prefix + Str(c.value) + "m";
      Framed(prefix, Str(c.value), 'm');
      StrRoundTrip(c.value);
      StrCanonical(c.value);
      s
  }

  lemma Framed(prefix: string, body: string, last: char)
    ensures var s := prefix + body + [last];
      |s| == |prefix| + |body| + 1 && s[..|prefix|] == prefix && s[|s| - 1] == last && s[|prefix|..|s| - 1] == body
  {
  }

  /** No colour makes begin_bg or begin_fg write the index -1. */
  lemma NeverEmitsDefaultIndex(param: string, c: Color)
    ensures ColorSgr(param, c) != [Esc] + "[" + param + ";5;-1m"
  {
  }

  // ---------------------------------------------------------------------------
  // View and Eye: the state, and what update writes for it
  // ---------------------------------------------------------------------------

  /** Which update runs: View's own, or Eye's override. */
  datatype Kind = PlainView | EyeView

  /** A snapshot of a View object's fields. */
  datatype ViewState = ViewState(
    kind: Kind,
    focused: bool,
    x: int, y: int, width: int, height: int,
    bg: Color, fg: Color,
    selectedBg: Color, selectedFg: Color)

  /** The fields View.__init__ sets. */
  function InitialState(kind: Kind, x: int, y: int, width: int, height: int): ViewState
  {
    ViewState(kind, false, x, y, width, height, Color.Default, Color.Default, Color.Black, Color.Red)
  }

  /** The fields of `Eye(width)`: View.__init__(0, 0, width, 5), then background black, foreground red. */
  function EyeInitialState(width: int): ViewState
  {
    InitialState(EyeView, 0, 0, width, 5).(bg := Color.Black, fg := Color.Red)
  }

  /** One row group of View.update, drawn at row coordinate y. */
  function Row(v: ViewState, y: int): string
  {
    CursorMove(v.x, y) + Reset + ColorSgr(BgParam, v.bg) + ColorSgr(FgParam, v.fg) + Times("*", v.width) + Reset
  }

  /**
   The row groups of View.update: `for i in range(height + 1)` draws one group
   per iteration, group i at row y + i.
   */
  function RowGroups(v: ViewState): (groups: seq<string>)
    ensures |groups| == RangeLen(v.height + 1)
    ensures forall i | 0 <= i < |groups| :: groups[i] == Row(v, v.y + i)
  {
    seq(RangeLen(v.height + 1), i => Row(v, v.y + i))
  }

  /**
   View.update writes the cursor move and SGR 196, then height + 1 rows
   (none when height < 0), the first at row y and each next one a row lower.
   */
  lemma PlainTraceRows(v: ViewState)
    ensures PlainTrace(v) == CursorMove(v.x, v.y) + PreambleSgr + JoinRange(r => Row(v, r), v.y, RangeLen(v.height + 1))
  {
    var n := RangeLen(v.height + 1);
    JoinRangeIsJoin(r => Row(v, r), v.y, n);
    assert seq(n, i => (r => Row(v, r))(v.y + i)) == RowGroups(v);
  }

  /** What View.update writes: a cursor move, SGR 196, then the row groups. */
  function PlainTrace(v: ViewState): string
  {
    CursorMove(v.x, v.y) + PreambleSgr + Join(RowGroups(v))
  }

  /**
   What Eye.update writes and how it ends. It starts at row 0 whatever v.y is;
   when range(height + 1) is non-empty its first iteration writes the cursor
   move, the reset, the colours and "+", then `'-' * width - 2` raises.
   */
  function EyeEmission(v: ViewState): Emission
  {
    if RangeLen(v.height + 1) == 0 then Emission(CursorMove(v.x, 0), Completed)
    else
      Emission(CursorMove(v.x, 0) + CursorMove(v.x, 0) + Reset + ColorSgr(BgParam, v.bg) + ColorSgr(FgParam, v.fg) + "+",
               Raised(StrMinusInt))
  }

  /** `view.update()` with Python's dispatch: Eye's override for an Eye. */
  function UpdateEmission(v: ViewState): Emission
  {
    match v.kind
    case PlainView => Emission(PlainTrace(v), Completed)
    case EyeView => EyeEmission(v)
  }

  /** A row group with both colours default carries no colour SGR at all. */
  lemma DefaultColorsRow(v: ViewState, y: int)
    requires v.bg.IsDefault() && v.fg.IsDefault()
    ensures Row(v, y) == CursorMove(v.x, y) + Reset + Times("*", v.width) + Reset
  {
  }

  /** An Eye as constructed always raises on its first row, after writing "+". */
  lemma ConstructedEyeRaises(width: int)
    ensures UpdateEmission(EyeInitialState(width)).outcome == Raised(StrMinusInt)
    ensures UpdateEmission(EyeInitialState(width)).trace ==
            CursorMove(0, 0) + CursorMove(0, 0) + Reset + ColorSgr(BgParam, Color.Black) + ColorSgr(FgParam, Color.Red) + "+"
  {
  }

  // ---------------------------------------------------------------------------
  // View objects
  // ---------------------------------------------------------------------------

  class View {
    const kind: Kind
    var focused: bool
    var x: int
    var y: int
    var width: int
    var height: int
    var bg: Color
    var fg: Color
    var selectedBg: Color
    var selectedFg: Color

    function State(): ViewState
      reads this
    {
      ViewState(kind, focused, x, y, width, height, bg, fg, selectedBg, selectedFg)
    }

    /** `View(x, y, width, height)`. */
    constructor (x: int, y: int, width: int, height: int)
      ensures State() == InitialState(PlainView, x, y, width, height)
    {
      kind := PlainView;
      focused := false;
      this.x := x;
      this.y := y;
      this.width := width;
      this.height := height;
      bg := Color.Default;
      fg := Color.Default;
      selectedBg := Color.Black;
      selectedFg := Color.Red;
    }

    /** `Eye(width)`: the base constructor at (0, 0) with height 5, then set_bg(Black), set_fg(Red). */
    constructor Eye(width: int)
      ensures State() == EyeInitialState(width)
    {
      kind := EyeView;
      focused := false;
      x := 0;
      y := 0;
      this.width := width;
      height := 5;
      bg := Color.Default;
      fg := Color.Default;
      selectedBg := Color.Black;
      selectedFg := Color.Red;
      new;
      SetBg(Color.Black);
      SetFg(Color.Red);
    }

    method SetBg(color: Color)
      modifies this
      ensures State() == old(State()).(bg := color)
    {
      bg := color;
    }

    method SetFg(color: Color)
      modifies this
      ensures State() == old(State()).(fg := color)
    {
      fg := color;
    }

    /** What begin_bg writes: nothing when the background is the default. */
    function BeginBg(): (s: string)
      reads this
      ensures s == [] <==> bg.IsDefault()
      ensures !bg.IsDefault() ==> s == [Esc] + "[48;5;" + Str(bg.value) + "m"
    {
      ColorSgr(BgParam, bg)
    }

    /** What begin_fg writes: nothing when the foreground is the default. */
    function BeginFg(): (s: string)
      reads this
      ensures s == [] <==> fg.IsDefault()
      ensures !fg.IsDefault() ==> s == [Esc] + "[38;5;" + Str(fg.value) + "m"
    {
      ColorSgr(FgParam, fg)
    }

    /** `view.update()`: View's renderer, or Eye's override for an Eye. Changes no field. */
    method Update() returns (out: string, outcome: Outcome)
      ensures Emission(out, outcome) == UpdateEmission(State())
    {
      if kind == PlainView {
        out := UpdateAsView();
        outcome := Completed;
      } else {
        out, outcome := UpdateAsEye();
      }
    }

    /** View.update: the row counter is a local copy of y, so the view is left as it was. */
    method UpdateAsView() returns (out: string)
      ensures out == PlainTrace(State())
    {
      ghost var groups := RowGroups(State());
      var row := y;
      out := CursorMove(x, row) + PreambleSgr;
      ghost var preamble := out;
      ghost var drawn: string := [];
      var i := 0;
      while i < height + 1
        invariant 0 <= i <= |groups|
        invariant row == y + i
        invariant drawn == Join(groups[..i])
        invariant out == preamble + drawn
      {
        var group := DrawRow(row, groups, i);
        JoinPrefixStep(groups, i);
        AppendAssoc(preamble, drawn, group);
        out := out + group;
        drawn := drawn + group;
        row := row + 1;
        i := i + 1;
      }
      assert groups[..i] == groups;
    }

    /** One iteration of View.update's loop: move to the row's start, reset, set bg and fg, fill, reset. */
    method DrawRow(row: int, ghost groups: seq<string>, ghost i: nat) returns (group: string)
      requires groups == RowGroups(State()) && i < |groups| && row == y + i
      ensures group == groups[i]
    {
      group := CursorMove(x, row) + Reset + BeginBg() + BeginFg() + Times("*", width) + Reset;
    }

    /**
     Eye.update: starts at row 0, ignoring y. Its loop runs range(height + 1);
     the first iteration raises after writing "+", so no later one is reached.
     */
    method UpdateAsEye() returns (out: string, outcome: Outcome)
      ensures Emission(out, outcome) == EyeEmission(State())
      ensures outcome.Raised? <==> height >= 0
    {
      var row := 0;
      out := CursorMove(x, row);
      if 0 < height + 1 {
        out := out + CursorMove(x, row) + Reset + BeginBg() + BeginFg() + "+";
        // `'-' * self._width - 2` subtracts an int from a str.
        outcome := Raised(StrMinusInt);
        return;
      }
      outcome := Completed;
    }
  }

  // ---------------------------------------------------------------------------
  // Shell
  // ---------------------------------------------------------------------------

  function States(vs: seq<View>): (r: seq<ViewState>)
    reads vs
    ensures |r| == |vs| && forall i | 0 <= i < |vs| :: r[i] == vs[i].State()
  {
    seq(|vs|, i reads vs requires 0 <= i < |vs| => vs[i].State())
  }

  /**
   Running calls one after another, as a Python block does: the output of each
   call follows the previous one's, and the first call that raises ends the block.
   */
  function Chain(es: seq<Emission>): Emission
  {
    if es == [] then Emission([], Completed)
    else
      var done := Chain(es[..|es| - 1]);
      if done.outcome.Raised? then done
      else Emission(done.trace + es[|es| - 1].trace, es[|es| - 1].outcome)
  }

  /** The result of `view.update()` for each view of the list, in list order. */
  function Updates(vs: seq<ViewState>): (es: seq<Emission>)
    ensures |es| == |vs| && forall i | 0 <= i < |vs| :: es[i] == UpdateEmission(vs[i])
  {
    seq(|vs|, i requires 0 <= i < |vs| => UpdateEmission(vs[i]))
  }

  /** Running a block is running its front, then, unless that raised, its back. */
  lemma {:induction false} ChainAppend(a: seq<Emission>, b: seq<Emission>)
    ensures Chain(a).outcome.Raised? ==> Chain(a + b) == Chain(a)
    ensures Chain(a).outcome == Completed ==>
            Chain(a + b) == Emission(Chain(a).trace + Chain(b).trace, Chain(b).outcome)
    decreases |b|
  {
    if b == [] {
      assert a + b == a;
    } else {
      var b' := b[..|b| - 1];
      assert (a + b)[..|a + b| - 1] == a + b';
      assert (a + b)[|a + b| - 1] == b[|b| - 1];
      ChainAppend(a, b');
    }
  }

  /** Calls that all complete run to the end, and their outputs are joined in order. */
  lemma {:induction false} ChainCompleted(es: seq<Emission>)
    requires forall i | 0 <= i < |es| :: es[i].outcome == Completed
    ensures Chain(es) == Emission(Join(seq(|es|, i requires 0 <= i < |es| => es[i].trace)), Completed)
  {
    if es != [] {
      var front := es[..|es| - 1];
      ChainCompleted(front);
      var traces := seq(|es|, i requires 0 <= i < |es| => es[i].trace);
      assert traces[..|es| - 1] == seq(|front|, i requires 0 <= i < |front| => front[i].trace);
    }
  }

  /** A block whose call k is the first to raise writes the outputs of calls 0 .. k and ends as call k did. */
  lemma ChainStopsAt(es: seq<Emission>, k: nat)
    requires k < |es| && es[k].outcome.Raised?
    requires forall i | 0 <= i < k :: es[i].outcome == Completed
    ensures Chain(es) == Emission(Join(seq(k, i requires 0 <= i < k => es[i].trace)) + es[k].trace, es[k].outcome)
  {
    var front := es[..k];
    assert es == front + [es[k]] + es[k + 1..];
    ChainCompleted(front);
    assert seq(|front|, i requires 0 <= i < |front| => front[i].trace) == seq(k, i requires 0 <= i < k => es[i].trace);
    ChainAppend(front, [es[k]]);
    assert [es[k]][..0] == [];
    ChainAppend(front + [es[k]], es[k + 1..]);
  }

  /** Plain views are all drawn, in list order, and rendering completes. */
  lemma RenderPlainInOrder(vs: seq<ViewState>)
    requires forall i | 0 <= i < |vs| :: vs[i].kind == PlainView
    ensures Chain(Updates(vs)) == Emission(Join(seq(|vs|, i requires 0 <= i < |vs| => PlainTrace(vs[i]))), Completed)
  {
    var es := Updates(vs);
    ChainCompleted(es);
    assert seq(|es|, i requires 0 <= i < |es| => es[i].trace) == seq(|vs|, i requires 0 <= i < |vs| => PlainTrace(vs[i]));
  }

  /**
   The first view that raises (an Eye, whose height is not negative) ends
   rendering: the plain views before it are drawn, the ones after it are not.
   */
  lemma RenderStopsAtEye(vs: seq<ViewState>, k: nat)
    requires k < |vs| && vs[k].kind == EyeView && vs[k].height >= 0
    requires forall i | 0 <= i < k :: vs[i].kind == PlainView
    ensures Chain(Updates(vs)) ==
            Emission(Join(seq(k, i requires 0 <= i < k => PlainTrace(vs[i]))) + EyeEmission(vs[k]).trace,
                     Raised(StrMinusInt))
  {
    var es := Updates(vs);
    assert es[k] == EyeEmission(vs[k]);
    ChainStopsAt(es, k);
    assert seq(k, i requires 0 <= i < k => es[i].trace) == seq(k, i requires 0 <= i < k => PlainTrace(vs[i]));
  }

  class Shell {
    var cursorMode: bool
    var views: seq<View>
    var promptInput: string

    constructor ()
      ensures cursorMode && views == [] && promptInput == []
    {
      cursorMode := true;
      views := [];
      promptInput := [];
    }

    /** enter: switch to the alternate screen. */
    method Enter() returns (out: string)
      ensures out == AltScreenEnter
    {
      out := AltScreenEnter;
    }

    /** leave: switch back from the alternate screen. */
    method Leave() returns (out: string)
      ensures out == AltScreenLeave
    {
      out := AltScreenLeave;
    }

    /** render: the banner, then every view's update in list order. Changes nothing. */
    method Render() returns (out: string, outcome: Outcome)
      ensures out == RenderBanner + Chain(Updates(States(views))).trace
      ensures outcome == Chain(Updates(States(views))).outcome
    {
      out := RenderBanner;
      ghost var all := Updates(States(views));
      var i := 0;
      while i < |views|
        invariant 0 <= i <= |views|
        invariant out == RenderBanner + Chain(all[..i]).trace
        invariant Chain(all[..i]).outcome == Completed
      {
        var trace, result := views[i].Update();
        assert all[i] == Emission(trace, result);
        assert all[..i + 1][..i] == all[..i];
        assert Chain(all[..i + 1]) == Emission(Chain(all[..i]).trace + trace, result);
        ghost var before := Chain(all[..i]).trace;
        AppendAssoc(RenderBanner, before, trace);
        out := out + trace;
        if result.Raised? {
          outcome := result;
          assert all[..i + 1] + all[i + 1..] == all;
          ChainAppend(all[..i + 1], all[i + 1..]);
          return;
        }
        i := i + 1;
      }
      assert all[..i] == all;
      outcome := Completed;
    }
  }

  // ---------------------------------------------------------------------------
  // show_splash
  // ---------------------------------------------------------------------------

  /** start_col: the splash's left margin; the odd column, if any, goes to the right margin. */
  function StartCol(cols: int): (c: int)
    ensures 0 <= (cols - SplashWidth) - 2 * c <= 1
  {
    FloorDiv(cols - SplashWidth, 2)
  }

  /** start_row: the splash's top margin; the odd row, if any, goes below it. */
  function StartRow(rows: int): (r: int)
    ensures 0 <= (rows - SplashHeight) - 2 * r <= 1
  {
    FloorDiv(rows - SplashHeight, 2)
  }

  lemma SplashOn80By24()
    ensures StartCol(80) == 15 && StartRow(24) == 6
  {
  }

  /** The splash lines, each preceded by `' ' * pad`. */
  function PadLines(lines: seq<string>, pad: int): string
  {
    if lines == [] then [] else PadLines(lines[..|lines| - 1], pad) + Times(" ", pad) + lines[|lines| - 1]
  }

  /** Every splash line gets the same left padding of max(pad, 0) spaces. */
  lemma {:induction false} PadLinesEach(lines: seq<string>, pad: int)
    ensures PadLines(lines, pad) == Join(seq(|lines|, i requires 0 <= i < |lines| => Times(" ", pad) + lines[i]))
  {
    if lines != [] {
      var front := lines[..|lines| - 1];
      PadLinesEach(front, pad);
      var padded := seq(|lines|, i requires 0 <= i < |lines| => Times(" ", pad) + lines[i]);
      assert padded[..|lines| - 1] == seq(|front|, i requires 0 <= i < |front| => Times(" ", pad) + front[i]);
    }
  }

  /**
   What show_splash writes for a terminal of the given size and the lines of
   ascii.color (as readlines returns them): ESC[0,0H, start_row newlines,
   the padded lines, then one newline.
   */
  function SplashTrace(cols: int, rows: int, lines: seq<string>): string
  {
    Home + Times("\n", StartRow(rows)) + PadLines(lines, StartCol(cols)) + "\n"
  }

  method ShowSplash(cols: int, rows: int, lines: seq<string>) returns (out: string)
    ensures out == SplashTrace(cols, rows, lines)
  {
    var startCol := FloorDiv(cols - SplashWidth, 2);
    var startRow := FloorDiv(rows - SplashHeight, 2);
    out := Home;
    var i := 0;
    while i < startRow
      invariant 0 <= i <= RangeLen(startRow)
      invariant out == Home + Times("\n", i)
    {
      out := out + "\n";
      i := i + 1;
    }
    var j := 0;
    while j < |lines|
      invariant 0 <= j <= |lines|
      invariant out == Home + Times("\n", startRow) + PadLines(lines[..j], startCol)
    {
      assert lines[..j + 1][..j] == lines[..j];
      out := out + Times(" ", startCol) + lines[j];
      j := j + 1;
    }
    assert lines[..j] == lines;
    out := out + "\n";
  }

  // ---------------------------------------------------------------------------
  // The prompt loop and the program
  // ---------------------------------------------------------------------------

  /** The index of the first line exactly equal to "exit" (no trimming), if any. */
  function FirstExit(lines: seq<string>): (k: Option<nat>)
    ensures k.Some? ==> k.value < |lines| && lines[k.value] == ExitCommand
    ensures k.Some? ==> forall j | 0 <= j < k.value :: lines[j] != ExitCommand
    ensures k.None? ==> forall j | 0 <= j < |lines| :: lines[j] != ExitCommand
  {
    if lines == [] then None
    else if lines[0] == ExitCommand then Some(0)
    else
      match FirstExit(lines[1..])
      case None => None
      case Some(k) => Some(k + 1)
  }

  /** How many times the loop calls input(): up to the "exit" line, or once past the end. */
  function InputCalls(lines: seq<string>): nat
  {
    match FirstExit(lines)
    case Some(k) => k + 1
    case None => |lines| + 1
  }

  /**
   The prompt loop: one "$ " per input() call; it completes at the first "exit"
   line, and input() raises EOFError when the lines run out before one.
   */
  function PromptEmission(lines: seq<string>): Emission
  {
    Emission(Times(Prompt, InputCalls(lines)), if FirstExit(lines).Some? then Completed else Raised(EOFError))
  }

  lemma PromptScenario()
    ensures PromptEmission(["  ", "ls", "exit"]) == Emission("$ $ $ ", Completed)
    ensures PromptEmission([" exit", "exit "]) == Emission("$ $ $ ", Raised(EOFError))
  {
  }

  method PromptLoop(lines: seq<string>) returns (out: string, outcome: Outcome)
    ensures Emission(out, outcome) == PromptEmission(lines)
  {
    out := Prompt;
    var calls := 1;
    if |lines| == 0 {
      outcome := Raised(EOFError);
      return;
    }
    var line := lines[0];
    while line != ExitCommand
      invariant 1 <= calls <= |lines|
      invariant line == lines[calls - 1]
      invariant forall j | 0 <= j < calls - 1 :: lines[j] != ExitCommand
      invariant out == Times(Prompt, calls)
      decreases |lines| - calls
    {
      out := out + Prompt;
      calls := calls + 1;
      if calls > |lines| {
        ExitAbsent(lines);
        outcome := Raised(EOFError);
        return;
      }
      line := lines[calls - 1];
    }
    ExitFoundAt(lines, calls - 1);
    outcome := Completed;
  }

  lemma ExitAbsent(lines: seq<string>)
    requires forall j | 0 <= j < |lines| :: lines[j] != ExitCommand
    ensures FirstExit(lines) == None
  {
  }

  lemma ExitFoundAt(lines: seq<string>, k: nat)
    requires k < |lines| && lines[k] == ExitCommand
    requires forall j | 0 <= j < k :: lines[j] != ExitCommand
    ensures FirstExit(lines) == Some(k)
  {
  }

  /** The view the program draws directly: View(0, 0, 5, 3), red background, black foreground. */
  function MainViewState(): ViewState
  {
    InitialState(PlainView, 0, 0, 5, 3).(bg := Color.Red, fg := Color.Black)
  }

  /**
   What the program writes, for a terminal of cols x rows, the splash lines,
   and the input lines: enter, the splash, render of the empty view list, the
   view, the prompt loop, and leave, which is reached only after "exit".
   */
  function LashEmission(cols: int, rows: int, splash: seq<string>, lines: seq<string>): Emission
  {
    var prompt := PromptEmission(lines);
    var leave := if prompt.outcome == Completed then AltScreenLeave else [];
    Emission(AltScreenEnter + SplashTrace(cols, rows, splash) + RenderBanner + PlainTrace(MainViewState()) +
             prompt.trace + leave,
             prompt.outcome)
  }

  /** The terminal is switched back from the alternate screen exactly when an "exit" line is read. */
  lemma LeavesAltScreenOnlyOnExit(cols: int, rows: int, splash: seq<string>, lines: seq<string>)
    ensures var out := LashEmission(cols, rows, splash, lines).trace;
            (|out| >= |AltScreenLeave| && out[|out| - |AltScreenLeave|..] == AltScreenLeave) <==>
            ExitCommand in lines
  {
    var e := LashEmission(cols, rows, splash, lines);
    var out := e.trace;
    if ExitCommand in lines {
      assert out[|out| - |AltScreenLeave|..] == AltScreenLeave;
    } else {
      var prompts := Times(Prompt, InputCalls(lines));
      assert prompts == Times(Prompt, InputCalls(lines) - 1) + Prompt;
      assert out[|out| - 1] == ' ';
    }
  }

  /**
   The `__main__` block. Terminal size, the splash lines read from ascii.color
   and the lines input() returns are parameters; time.sleep(1) has no output.
   */
  method RunLash(cols: int, rows: int, splash: seq<string>, lines: seq<string>) returns (out: string, outcome: Outcome)
    ensures Emission(out, outcome) == LashEmission(cols, rows, splash, lines)
  {
    var shell := new Shell();
    out := shell.Enter();

    var shown := ShowSplash(cols, rows, splash);
    out := out + shown;

    var rendered, renderOutcome := shell.Render();
    assert Updates(States(shell.views)) == [];
    assert rendered == RenderBanner && renderOutcome == Completed;
    out := out + rendered;

    var view := new View(0, 0, 5, 3);
    view.SetBg(Color.Red);
    view.SetFg(Color.Black);
    assert view.State() == MainViewState();
    var drawn, drawOutcome := view.Update();
    assert drawn == PlainTrace(MainViewState()) && drawOutcome == Completed;
    out := out + drawn;

    var prompts;
    prompts, outcome := PromptLoop(lines);
    out := out + prompts;
    if outcome.Raised? {
      return;
    }

    var left := shell.Leave();
    out := out + left;
  }
}
