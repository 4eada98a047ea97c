/** The indenting line printer used to render certificates: an indent
    level, a writer, and the first write error, after which nothing more is
    printed; and the hexadecimal dump of octet strings. */
module Printer {
  import opened Common

  // ---------------------------------------------------------------------
  // The writer
  // ---------------------------------------------------------------------

  /** The error of the write call with the given number. */
  datatype WriteError = WriteFailed(call: nat)

  /** What has been written so far, and how many write calls were made. */
  datatype Out = Out(written: string, calls: nat)

  /** One write call with `s`: the calls numbered in `failing` fail and
      write nothing, the others write all of `s`. */
  function Put(o: Out, failing: set<nat>, s: string): (Out, Option<WriteError>)
  {
    if o.calls in failing then (Out(o.written, o.calls + 1), Some(WriteFailed(o.calls)))
    else (Out(o.written + s, o.calls + 1), None)
  }

  /** The `io.Writer` the printer writes to. Which of its calls fail is
      decided up front by `failing`. */
  class Writer {
    var written: string
    var calls: nat
    const failing: set<nat>

    function Snapshot(): Out
      reads this
    {
      Out(written, calls)
    }

    constructor (failing: set<nat>)
      ensures Snapshot() == Out("", 0) && this.failing == failing
    {
      written, calls, this.failing := "", 0, failing;
    }

    /** `Write(s)`. */
    method Write(s: string) returns (err: Option<WriteError>)
      modifies this
      ensures (Snapshot(), err) == Put(old(Snapshot()), failing, s)
    {
      if calls in failing {
        err := Some(WriteFailed(calls));
      } else {
        written := written + s;
        err := None;
      }
      calls := calls + 1;
    }
  }

  // ---------------------------------------------------------------------
  // The printer, as a value
  // ---------------------------------------------------------------------

  /** The writer's state, the printer's error and its indent level. */
  datatype State = State(out: Out, err: Option<WriteError>, indent: int)

  /** The spaces for an indent level: four per level, none for a level
      below one. */
  function IndentWidth(level: int): nat
  {
    if level > 0 then 4 * level else 0
  }

  /** `printIndent` to the writer: `k` spaces, one write call each, ending
      at the first failing call, whose error becomes the printer's. */
  function IndentWrites(st: State, failing: set<nat>, k: nat): State
    decreases k
  {
    if k == 0 then st
    else
      var (o, e) := Put(st.out, failing, " ");
      if e.Some? then st.(out := o, err := e) else IndentWrites(st.(out := o), failing, k - 1)
  }

  /** `Line`: nothing once an error is held; otherwise the indent, then the
      text and a newline in one write call. An error of the indent is kept
      unless the text's write fails too, and then that error is kept. */
  function LineStep(st: State, failing: set<nat>, text: string): State
  {
    if st.err.Some? then st
    else
      var st1 := IndentWrites(st, failing, IndentWidth(st.indent));
      var (o, e) := Put(st1.out, failing, text + "\n");
      st1.(out := o, err := if e.Some? then e else st1.err)
  }

  /** A line and its indent level. */
  datatype LineAt = LineAt(level: int, text: string)

  /** The lines printed one after the other, each at its own level, from a
      printer whose level is restored afterwards. */
  function PrintLines(st: State, failing: set<nat>, lines: seq<LineAt>): State
    decreases |lines|
  {
    if |lines| == 0 then st
    else PrintLines(LineStep(st.(indent := lines[0].level), failing, lines[0].text).(indent := st.indent),
                    failing, lines[1..])
  }

  /** The text the lines make. */
  function Rendered(lines: seq<LineAt>): string
    decreases |lines|
  {
    if |lines| == 0 then ""
    else Spaces(IndentWidth(lines[0].level)) + lines[0].text + "\n" + Rendered(lines[1..])
  }

  /** The write calls the lines make. */
  function CallsOf(lines: seq<LineAt>): nat
    decreases |lines|
  {
    if |lines| == 0 then 0 else IndentWidth(lines[0].level) + 1 + CallsOf(lines[1..])
  }

  /** Whether none of the `k` calls from call `from` on fails. */
  predicate NoneFail(failing: set<nat>, from: nat, k: nat)
  {
    forall c :: from <= c < from + k ==> c !in failing
  }

  /** The indent writes only append spaces, one per call, when none fails. */
  lemma {:induction false} IndentWritesClean(st: State, failing: set<nat>, k: nat)
    requires NoneFail(failing, st.out.calls, k)
    ensures IndentWrites(st, failing, k) == st.(out := Out(st.out.written + Spaces(k), st.out.calls + k))
    decreases k
  {
    if k > 0 {
      var o := Out(st.out.written + " ", st.out.calls + 1);
      IndentWritesClean(st.(out := o), failing, k - 1);
      assert " " + Spaces(k - 1) == Spaces(k);
      assert st.out.written + " " + Spaces(k - 1) == st.out.written + Spaces(k);
    }
  }

  /** The indent writes never clear an error and keep the level. */
  lemma {:induction false} IndentWritesKeep(st: State, failing: set<nat>, k: nat)
    ensures IndentWrites(st, failing, k).indent == st.indent
    ensures st.err.Some? ==> IndentWrites(st, failing, k).err.Some?
    ensures IndentWrites(st, failing, k).err.None? <==> st.err.None? && NoneFail(failing, st.out.calls, k)
    decreases k
  {
    if k > 0 {
      var (o, e) := Put(st.out, failing, " ");
      if e.None? {
        IndentWritesKeep(st.(out := o), failing, k - 1);
      }
    }
  }

  /** A line from a printer without error writes its indent, text and
      newline when none of its write calls fails. */
  lemma LineClean(st: State, failing: set<nat>, text: string)
    requires st.err.None? && NoneFail(failing, st.out.calls, IndentWidth(st.indent) + 1)
    ensures LineStep(st, failing, text)
         == st.(out := Out(st.out.written + Spaces(IndentWidth(st.indent)) + text + "\n",
                           st.out.calls + IndentWidth(st.indent) + 1))
  {
    IndentWritesClean(st, failing, IndentWidth(st.indent));
  }

  /** Once the printer holds an error, a line changes nothing; and the error
      after a line is unset exactly when it was unset before and none of
      the line's write calls failed. */
  lemma LineError(st: State, failing: set<nat>, text: string)
    ensures st.err.Some? ==> LineStep(st, failing, text) == st
    ensures LineStep(st, failing, text).err.None? <==>
              st.err.None? && NoneFail(failing, st.out.calls, IndentWidth(st.indent) + 1)
    ensures LineStep(st, failing, text).indent == st.indent
  {
    var k := IndentWidth(st.indent);
    IndentWritesKeep(st, failing, k);
    if st.err.None? {
      var st1 := IndentWrites(st, failing, k);
      if st1.err.None? {
        IndentWritesClean(st, failing, k);
        assert st1.out.calls == st.out.calls + k;
      }
    }
  }

  /** Printing two runs of lines is printing their concatenation. */
  lemma {:induction false} PrintLinesAppend(st: State, failing: set<nat>, a: seq<LineAt>, b: seq<LineAt>)
    ensures PrintLines(st, failing, a + b) == PrintLines(PrintLines(st, failing, a), failing, b)
    decreases |a|
  {
    if |a| == 0 {
      assert a + b == b;
    } else {
      assert (a + b)[0] == a[0];
      assert (a + b)[1..] == a[1..] + b;
      var st' := LineStep(st.(indent := a[0].level), failing, a[0].text).(indent := st.indent);
      PrintLinesAppend(st', failing, a[1..], b);
    }
  }

  /** Printing keeps the level, and once an error is held prints nothing. */
  lemma {:induction false} PrintLinesKeep(st: State, failing: set<nat>, lines: seq<LineAt>)
    ensures PrintLines(st, failing, lines).indent == st.indent
    ensures st.err.Some? ==> PrintLines(st, failing, lines) == st
    decreases |lines|
  {
    if |lines| > 0 {
      var st' := LineStep(st.(indent := lines[0].level), failing, lines[0].text).(indent := st.indent);
      PrintLinesKeep(st', failing, lines[1..]);
    }
  }

  /** The printer after the lines `acc`, left at `level`. */
  function After(st: State, failing: set<nat>, acc: seq<LineAt>, level: int): State
  {
    PrintLines(st, failing, acc).(indent := level)
  }

  /** A line printed at `level` after `acc` is the printing of `acc` and
      that line. */
  lemma AfterLine(st: State, failing: set<nat>, acc: seq<LineAt>, level: int, text: string)
    ensures LineStep(After(st, failing, acc, level), failing, text)
         == After(st, failing, acc + [LineAt(level, text)], level)
  {
    var s := PrintLines(st, failing, acc);
    PrintLinesAppend(st, failing, acc, [LineAt(level, text)]);
    LineError(s.(indent := level), failing, text);
    assert [LineAt(level, text)][1..] == [];
  }

  /** No lines: the printer as it was. */
  lemma AfterNothing(st: State, failing: set<nat>)
    ensures After(st, failing, [], st.indent) == st
  {
  }

  /** Back at the starting level, after the lines is the printing of them. */
  lemma AfterDone(st: State, failing: set<nat>, acc: seq<LineAt>)
    ensures After(st, failing, acc, st.indent) == PrintLines(st, failing, acc)
  {
    PrintLinesKeep(st, failing, acc);
  }

  /** When no write fails, printing lines appends exactly their text. */
  lemma {:induction false} PrintLinesClean(st: State, failing: set<nat>, lines: seq<LineAt>)
    requires st.err.None? && NoneFail(failing, st.out.calls, CallsOf(lines))
    ensures PrintLines(st, failing, lines)
         == st.(out := Out(st.out.written + Rendered(lines), st.out.calls + CallsOf(lines)))
    decreases |lines|
  {
    if |lines| > 0 {
      var l := lines[0];
      var s0 := st.(indent := l.level);
      LineClean(s0, failing, l.text);
      var st' := LineStep(s0, failing, l.text).(indent := st.indent);
      PrintLinesClean(st', failing, lines[1..]);
      assert st.out.written + Spaces(IndentWidth(l.level)) + l.text + "\n" + Rendered(lines[1..])
          == st.out.written + Rendered(lines);
    }
  }

  // ---------------------------------------------------------------------
  // The hexadecimal dump
  // ---------------------------------------------------------------------

  const HexDigits: string := "0123456789abcdef"

  /** `%02x`: two lower-case hexadecimal digits. */
  function HexOctet(b: byte): (s: string)
    ensures |s| == 2
  {
    [HexDigits[b / 16], HexDigits[b % 16]]
  }

  /** What comes before octet `i`: a newline and the indent at `level` at
      the start of each row of 16, a space otherwise. */
  function Separator(i: nat, level: int): string
  {
    if i % 16 == 0 then "\n" + Spaces(IndentWidth(level)) else " "
  }

  /** The dump of `data` with rows indented at `level`. */
  function HexDump(data: seq<byte>, level: int): string
    decreases |data|
  {
    if |data| == 0 then ""
    else HexDump(data[..|data| - 1], level) + Separator(|data| - 1, level) + HexOctet(data[|data| - 1])
  }

  /** The number of rows of a dump of `n` octets, `⌈n/16⌉`. */
  function Rows(n: nat): nat
  {
    (n + 15) / 16
  }

  /** One octet more starts a new row exactly at a multiple of 16. */
  lemma RowsStep(n: nat)
    ensures Rows(n + 1) == Rows(n) + (if n % 16 == 0 then 1 else 0)
  {
    var q, r := n / 16, n % 16;
    assert n == 16 * q + r;
    if r == 0 {
      assert (n + 1 + 15) / 16 == q + 1;
      assert (n + 15) / 16 == q;
    } else {
      assert (n + 1 + 15) / 16 == q + 1;
      assert (n + 15) / 16 == q + 1;
    }
  }

  /** A dump of `n` octets is `3n + IndentWidth(level) * ⌈n/16⌉` long: two
      digits and one separator per octet, and an indent per row. */
  lemma {:induction false} HexDumpLength(data: seq<byte>, level: int)
    ensures |HexDump(data, level)| == 3 * |data| + IndentWidth(level) * Rows(|data|)
    decreases |data|
  {
    if |data| > 0 {
      var n := |data| - 1;
      HexDumpLength(data[..n], level);
      LengthStep(n, IndentWidth(level), |HexDump(data[..n], level)|, |Separator(n, level)|);
    }
  }

  /** The length of a dump grows by a separator and two digits per octet,
      the separator holding an indent at the start of each row. */
  lemma LengthStep(n: nat, w: nat, before: nat, separator: nat)
    requires before == 3 * n + w * Rows(n)
    requires separator == if n % 16 == 0 then 1 + w else 1
    ensures before + separator + 2 == 3 * (n + 1) + w * Rows(n + 1)
  {
    RowsStep(n);
    if n % 16 == 0 {
      MulAdd(w, Rows(n), 1);
    }
  }

  lemma MulAdd(w: nat, r: nat, d: nat)
    ensures w * (r + d) == w * r + w * d
  {
  }

  /** The value of a hexadecimal digit. */
  function DigitValue(c: char): nat
  {
    if '0' <= c <= '9' then c as nat - '0' as nat
    else if 'a' <= c <= 'f' then c as nat - 'a' as nat + 10
    else 0
  }

  /** The dump with its separators dropped. */
  function DigitsOf(s: string): string
    decreases |s|
  {
    if |s| == 0 then ""
    else DigitsOf(s[..|s| - 1]) + (if s[|s| - 1] == ' ' || s[|s| - 1] == '\n' then "" else [s[|s| - 1]])
  }

  /** Pairs of hexadecimal digits read back as octets. */
  function Unhex(s: string): seq<byte>
    decreases |s|
  {
    if |s| < 2 then []
    else
      var hi, lo := DigitValue(s[0]), DigitValue(s[1]);
      (if hi < 16 && lo < 16 then [hi * 16 + lo] else [0]) + Unhex(s[2..])
  }

  /** The digits of the octets, in order. */
  function OctetDigits(data: seq<byte>): string
    decreases |data|
  {
    if |data| == 0 then "" else OctetDigits(data[..|data| - 1]) + HexOctet(data[|data| - 1])
  }

  /** Dropping separators distributes over concatenation. */
  lemma {:induction false} DigitsOfAppend(a: string, b: string)
    ensures DigitsOf(a + b) == DigitsOf(a) + DigitsOf(b)
    decreases |b|
  {
    if |b| == 0 {
      assert a + b == a;
    } else {
      assert (a + b)[..|a + b| - 1] == a + b[..|b| - 1];
      DigitsOfAppend(a, b[..|b| - 1]);
    }
  }

  /** A separator has no digit. */
  lemma {:induction false} SeparatorDigits(i: nat, level: int)
    ensures DigitsOf(Separator(i, level)) == ""
  {
    if i % 16 == 0 {
      SpacesDigits(IndentWidth(level));
      DigitsOfAppend("\n", Spaces(IndentWidth(level)));
      assert DigitsOf("\n") == "" by {
        assert "\n"[..0] == "";
      }
    } else {
      assert " "[..0] == "";
    }
  }

  lemma {:induction false} SpacesDigits(n: nat)
    ensures DigitsOf(Spaces(n)) == ""
  {
    if n > 0 {
      assert Spaces(n)[..n - 1] == Spaces(n - 1);
      SpacesDigits(n - 1);
    }
  }

  /** The digits of an octet are kept. */
  lemma OctetKept(b: byte)
    ensures DigitsOf(HexOctet(b)) == HexOctet(b)
  {
    var s := HexOctet(b);
    HexDigitsNoSeparator(b / 16);
    HexDigitsNoSeparator(b % 16);
    assert s[..1][..0] == "";
    assert DigitsOf(s[..1]) == [s[0]];
    assert DigitsOf(s) == DigitsOf(s[..1]) + [s[1]];
    assert [s[0]] + [s[1]] == s;
  }

  lemma HexDigitsNoSeparator(i: nat)
    requires i < 16
    ensures HexDigits[i] != ' ' && HexDigits[i] != '\n'
  {
  }

  /** The dump, separators dropped, is the octets' digits. */
  lemma {:induction false} DumpDigits(data: seq<byte>, level: int)
    ensures DigitsOf(HexDump(data, level)) == OctetDigits(data)
    decreases |data|
  {
    if |data| > 0 {
      var n := |data| - 1;
      DumpDigits(data[..n], level);
      DigitsOfAppend(HexDump(data[..n], level) + Separator(n, level), HexOctet(data[n]));
      DigitsOfAppend(HexDump(data[..n], level), Separator(n, level));
      SeparatorDigits(n, level);
      OctetKept(data[n]);
    }
  }

  /** One octet's digits read back as the octet. */
  lemma OctetValue(b: byte)
    ensures Unhex(HexOctet(b)) == [b]
  {
    var s := HexOctet(b);
    assert DigitValue(HexDigits[b / 16]) == b / 16;
    assert DigitValue(HexDigits[b % 16]) == b % 16;
    assert s[2..] == [];
  }

  /** Digits of whole octets read back pairwise. */
  lemma {:induction false} UnhexAppend(a: string, b: byte)
    requires |a| % 2 == 0
    ensures Unhex(a + HexOctet(b)) == Unhex(a) + [b]
    decreases |a|
  {
    if |a| == 0 {
      assert a + HexOctet(b) == HexOctet(b);
      OctetValue(b);
    } else {
      assert (a + HexOctet(b))[2..] == a[2..] + HexOctet(b);
      UnhexAppend(a[2..], b);
    }
  }

  lemma {:induction false} OctetDigitsLength(data: seq<byte>)
    ensures |OctetDigits(data)| == 2 * |data|
    decreases |data|
  {
    if |data| > 0 {
      OctetDigitsLength(data[..|data| - 1]);
    }
  }

  /** The dump loses nothing: every octet, in order, is read back from its
      digits once the separators are dropped. */
  lemma {:induction false} HexDumpRoundTrip(data: seq<byte>, level: int)
    ensures Unhex(DigitsOf(HexDump(data, level))) == data
    decreases |data|
  {
    DumpDigits(data, level);
    OctetDigitsRoundTrip(data);
  }

  lemma {:induction false} OctetDigitsRoundTrip(data: seq<byte>)
    ensures Unhex(OctetDigits(data)) == data
    decreases |data|
  {
    if |data| > 0 {
      var n := |data| - 1;
      OctetDigitsRoundTrip(data[..n]);
      OctetDigitsLength(data[..n]);
      UnhexAppend(OctetDigits(data[..n]), data[n]);
      assert data[..n] + [data[n]] == data;
    }
  }

  /** Every row starts on a new line, with its indent before the first
      octet of the row. */
  lemma HexDumpRowStart(data: seq<byte>, level: int, i: nat)
    requires i < |data| && i % 16 == 0
    ensures HexDump(data[..i + 1], level) == HexDump(data[..i], level) + "\n" + Spaces(IndentWidth(level)) + HexOctet(data[i])
  {
    assert data[..i + 1][..i] == data[..i];
  }

  // ---------------------------------------------------------------------
  // The printer object
  // ---------------------------------------------------------------------

  /** The record `Printer`. */
  class Printer {
    const w: Writer
    var err: Option<WriteError>
    var indent: int

    function Snapshot(): State
      reads this, w
    {
      State(w.Snapshot(), err, indent)
    }

    /** `NewPrinter(w)`. */
    constructor (w: Writer)
      ensures this.w == w && err.None? && indent == 0
    {
      this.w, err, indent := w, None, 0;
    }

    /** `Printer.Error`: the error of the modelled state, which the line
        lemmas show is the first failed write and is kept afterwards. */
    function Error(): (e: Option<WriteError>)
      reads this, w
      ensures e == Snapshot().err
    {
      err
    }

    /** `Printer.Indent`. */
    method Indent()
      modifies this
      ensures Snapshot() == old(Snapshot()).(indent := old(indent) + 1)
    {
      indent := indent + 1;
    }

    /** `Printer.Unindent`. */
    method Unindent()
      modifies this
      ensures Snapshot() == old(Snapshot()).(indent := old(indent) - 1)
    {
      indent := indent - 1;
    }

    /** `printIndent` on the writer: four spaces per level, one call each,
        stopping at the first failure. */
    method PrintIndent()
      modifies this, w
      ensures Snapshot() == IndentWrites(old(Snapshot()), w.failing, IndentWidth(old(indent)))
    {
      ghost var k := IndentWidth(indent);
      var i := 0;
      while i < indent * 4
        invariant 0 <= i <= k && indent == old(indent)
        invariant IndentWrites(old(Snapshot()), w.failing, k) == IndentWrites(Snapshot(), w.failing, k - i)
      {
        var e := w.Write(" ");
        if e.Some? {
          err := e;
          return;
        }
        i := i + 1;
      }
    }

    /** `printIndent` on a buffer, which never fails. */
    method PrintIndentTo(buf: string) returns (r: string)
      ensures r == buf + Spaces(IndentWidth(indent))
    {
      r := buf;
      var i := 0;
      while i < indent * 4
        invariant 0 <= i <= IndentWidth(indent)
        invariant r == buf + Spaces(i)
      {
        r := r + " ";
        i := i + 1;
      }
    }

    /** `Printer.Line` with the formatted text. */
    method Line(text: string)
      modifies this, w
      ensures Snapshot() == LineStep(old(Snapshot()), w.failing, text)
    {
      if err.Some? {
        return;
      }
      PrintIndent();
      var e := w.Write(text + "\n");
      if e.Some? {
        err := e;
      }
    }

    /** `Printer.Hex`: the dump at one level deeper than the printer's; the
        printer and its writer are left as they were. */
    method Hex(data: seq<byte>) returns (r: string)
      modifies this
      ensures r == HexDump(data, old(indent) + 1)
      ensures Snapshot() == old(Snapshot())
    {
      var buf := "";
      indent := indent + 1;
      for i := 0 to |data|
        invariant indent == old(indent) + 1 && err == old(err)
        invariant buf == HexDump(data[..i], indent)
      {
        if i % 16 == 0 {
          buf := buf + "\n";
          buf := PrintIndentTo(buf);
        } else {
          buf := buf + " ";
        }
        buf := buf + HexOctet(data[i]);
        assert data[..i + 1][..i] == data[..i];
      }
      assert data[..|data|] == data;
      indent := indent - 1;
      r := buf;
    }
  }
}
