/** The converter between a binary table of strings and its text form: the export and the
    import loop of convert_unitxt, and when importing the exported text gives the table
    back. */
module Unitxt {

  /** A 16-bit code unit. */
  type Code = x: int | 0 <= x < 0x1_0000

  type Entry = seq<Code>

  /** Category sizes and strings. */
  datatype Table = Table(categories: seq<nat>, entries: seq<Entry>)

  const TWO_TO_THE_32 := 0x1_0000_0000

  // ---- the text form ----

  function EscapeCode(u: Code): seq<Code> {
    if u == 9 then [92, 116] else if u == 10 then [92, 110] else if u == 92 then [92, 92] else [u]
  }

  function Escape(e: Entry): seq<Code> { if e == [] then [] else EscapeCode(e[0]) + Escape(e[1..]) }

  const CRLF: seq<Code> := [13, 10]

  /** "##### CATEGORY #####" */
  function CategoryHeading(): seq<Code> {
    [35, 35, 35, 35, 35, 32, 67, 65, 84, 69, 71, 79, 82, 89, 32, 35, 35, 35, 35, 35]
  }

  function Decimal(n: nat): seq<Code> { if n < 10 then [48 + n] else Decimal(n / 10) + [48 + n % 10] }

  /** "#ENTRY" and the entry's number, from 1 */
  function EntryHeading(n: nat): seq<Code> { [35, 69, 78, 84, 82, 89] + Decimal(n) }

  function CategorySize(t: Table, c: nat): nat { if c < |t.categories| then t.categories[c] else 0 }

  /** The text from entry k on, with `left` entries of category c to come; the count of
      entries to come is unsigned. */
  function Body(t: Table, k: nat, c: nat, left: nat): seq<Code>
    decreases |t.entries| - k
  {
    if k >= |t.entries| then []
    else
      var left' := (left - 1) % TWO_TO_THE_32;
      var line := EntryHeading(k + 1) + CRLF + (Escape(t.entries[k]) + CRLF);
      if left' == 0 && k < |t.entries| - 1
      then line + (CategoryHeading() + CRLF + Body(t, k + 1, c + 1, CategorySize(t, c + 1)))
      else line + Body(t, k + 1, c, left')
  }

  function ExportText(t: Table): seq<Code> { [0xFEFF] + (CategoryHeading() + CRLF + Body(t, 0, 0, CategorySize(t, 0))) }

  /** Characters as code units, of those that have one. */
  function Units(s: string): seq<Code> {
    seq(|s|, i requires 0 <= i < |s| => if s[i] as int < 0x1_0000 then s[i] as int else 0xFFFD)
  }

  lemma SecondEntry(t: Table)
    requires t == Table([1, 1], [[65], [66]])
    ensures Body(t, 1, 1, 1) == EntryHeading(2) + CRLF + ([66] + CRLF)
  {
    hide EntryHeading;
    assert Escape([66]) == [66] + Escape([]);
    assert Body(t, 2, 1, 0) == [];
  }

  lemma FirstEntry(t: Table)
    requires t == Table([1, 1], [[65], [66]])
    ensures Body(t, 0, 0, 1) ==
      EntryHeading(1) + CRLF + ([65] + CRLF) + (CategoryHeading() + CRLF + Body(t, 1, 1, 1))
  {
    hide EntryHeading, CategoryHeading;
    assert Escape([65]) == [65] + Escape([]);
  }

  /** The text of a table with two categories of one string each. */
  lemma SmallExport(t: Table)
    requires t == Table([1, 1], [[65], [66]])
    ensures ExportText(t) ==
      [0xFEFF] + (Units("##### CATEGORY #####") + CRLF +
                  (Units("#ENTRY1") + CRLF + (Units("A") + CRLF) +
                   (Units("##### CATEGORY #####") + CRLF + (Units("#ENTRY2") + CRLF + (Units("B") + CRLF)))))
  {
    Headings();
    assert EntryHeading(2) == Units("#ENTRY2") && Units("A") == [65] && Units("B") == [66];
    hide CategoryHeading, EntryHeading, Units, Body;
    FirstEntry(t);
    SecondEntry(t);
  }

  // ---- reading the text ----

  function Drop(s: seq<Code>, n: nat): seq<Code> { if n <= |s| then s[n..] else [] }

  /** What the escape with second unit u stands for. */
  function Unescape(u: Code): Code { if u == 110 then 10 else if u == 116 then 9 else 92 }

  datatype Line = Line(units: seq<Code>, rest: seq<Code>)

  /** The next line, terminated if a carriage return ended it; the unit after that is
      skipped unread. */
  function TakeLine(s: seq<Code>): Line
    decreases |s|
  {
    if s == [] then Line([], [])
    else if s[0] == 13 then Line([0], Drop(s, 2))
    else if s[0] == 92 then
      var l := TakeLine(Drop(s, 2));
      Line([Unescape(if |s| > 1 then s[1] else 0)] + l.units, l.rest)
    else
      var l := TakeLine(s[1..]);
      Line([s[0]] + l.units, l.rest)
  }

  lemma {:induction false} TakeLineShrinks(s: seq<Code>)
    requires s != []
    ensures |TakeLine(s).rest| < |s| && |TakeLine(s).units| > 0
    decreases |s|
  {
    if s[0] == 13 {
    } else if s[0] == 92 {
      if Drop(s, 2) != [] { TakeLineShrinks(Drop(s, 2)); }
    } else if s[1..] != [] {
      TakeLineShrinks(s[1..]);
    }
  }

  /** Sizes, the lines before the first category heading counted first; the strings with
      their terminators; and the unit a one-unit line leaves behind in the line buffer. */
  datatype Reading = Reading(sizes: seq<nat>, strings: seq<seq<Code>>, second: Code)

  function Count(sizes: seq<nat>): seq<nat>
    requires sizes != []
  {
    sizes[|sizes| - 1 := sizes[|sizes| - 1] + 1]
  }

  function Second(line: seq<Code>, left: Code): Code { if |line| > 1 then line[1] else left }

  function Accept(r: Reading, line: seq<Code>): Reading
    requires r.sizes != [] && line != []
  {
    var second := Second(line, r.second);
    if line[0] != 35 then Reading(Count(r.sizes), r.strings + [line], second)
    else if second == 35 then Reading(r.sizes + [0], r.strings, second)
    else r.(second := second)
  }

  function ReadFrom(s: seq<Code>, r: Reading): (r': Reading)
    requires r.sizes != []
    ensures r'.sizes != []
    decreases |s|
  {
    if s == [] then r
    else
      TakeLineShrinks(s);
      ReadFrom(TakeLine(s).rest, Accept(r, TakeLine(s).units))
  }

  function Import(text: seq<Code>): (r: Reading)
    ensures r.sizes != []
  {
    ReadFrom(if text != [] && text[0] == 0xFEFF then text[1..] else text, Reading([0], [], 0))
  }

  // ---- reading what was written ----

  lemma {:induction false} EscapedLine(e: Entry, tail: seq<Code>)
    requires 13 !in e
    ensures TakeLine(Escape(e) + CRLF + tail) == Line(e + [0], tail)
    decreases |e|
  {
    var s := Escape(e) + CRLF + tail;
    if e == [] {
      assert Drop(s, 2) == tail;
    } else {
      assert e[0] != 13 && 13 !in e[1..];
      EscapedLine(e[1..], tail);
      var t := Escape(e[1..]) + CRLF + tail;
      assert s == EscapeCode(e[0]) + t;
      if |EscapeCode(e[0])| == 2 {
        assert Drop(s, 2) == t;
      } else {
        assert s[1..] == t;
      }
      assert [e[0]] + (e[1..] + [0]) == e + [0];
    }
  }

  predicate Plain(e: seq<Code>) { 9 !in e && 10 !in e && 13 !in e && 92 !in e }

  lemma {:induction false} PlainNeedsNoEscape(e: seq<Code>)
    requires Plain(e)
    ensures Escape(e) == e
  {
    if e != [] {
      assert e[0] in e;
      assert forall u :: u in e[1..] ==> u in e;
      PlainNeedsNoEscape(e[1..]);
    }
  }

  function DecimalValue(digits: seq<Code>): int {
    if digits == [] then 0 else 10 * DecimalValue(digits[..|digits| - 1]) + digits[|digits| - 1] - 48
  }

  /** The digits read as the number, and there is no leading zero. */
  lemma {:induction false} DecimalReadsBack(n: nat)
    ensures DecimalValue(Decimal(n)) == n
    ensures Decimal(n) != [] && (n > 0 ==> Decimal(n)[0] != 48)
    ensures forall i :: 0 <= i < |Decimal(n)| ==> 48 <= Decimal(n)[i] <= 57
  {
    if n < 10 {
      assert Decimal(n)[..0] == [];
    } else {
      DecimalReadsBack(n / 10);
      assert Decimal(n)[..|Decimal(n)| - 1] == Decimal(n / 10);
    }
  }

  /** The headings of the text form. */
  lemma Headings()
    ensures CategoryHeading() == Units("##### CATEGORY #####")
    ensures EntryHeading(1) == Units("#ENTRY1") && EntryHeading(203) == Units("#ENTRY203")
  {
    assert Decimal(203) == Decimal(20) + [51];
    assert Decimal(20) == Decimal(2) + [48];
    assert Decimal(203) == [50, 48, 51];
  }

  /** A tab, a line break and a backslash are written as a backslash and a letter, every
      other unit as it is, one after the other. */
  lemma Escapes(u: Code, e: Entry, f: Entry)
    ensures u == '\t' as int ==> Escape([u]) == Units("\\t")
    ensures u == '\n' as int ==> Escape([u]) == Units("\\n")
    ensures u == '\\' as int ==> Escape([u]) == Units("\\\\")
    ensures u != '\t' as int && u != '\n' as int && u != '\\' as int ==> Escape([u]) == [u]
    ensures Escape(e + f) == Escape(e) + Escape(f)
  {
    EscapeCuts(e, f);
    assert Escape([u]) == EscapeCode(u) + Escape([]);
  }

  lemma {:induction false} EscapeCuts(a: Entry, b: Entry)
    ensures Escape(a + b) == Escape(a) + Escape(b)
  {
    if a == [] {
      assert a + b == b;
    } else {
      assert (a + b)[1..] == a[1..] + b;
      EscapeCuts(a[1..], b);
    }
  }

  lemma {:induction false} DecimalIsPlain(n: nat)
    ensures Plain(Decimal(n))
  {
    if n >= 10 { DecimalIsPlain(n / 10); }
  }

  lemma PlainLine(e: seq<Code>, tail: seq<Code>)
    requires Plain(e)
    ensures TakeLine(e + CRLF + tail) == Line(e + [0], tail)
  {
    PlainNeedsNoEscape(e);
    EscapedLine(e, tail);
  }

  lemma EntryHeadingLine(n: nat, tail: seq<Code>)
    ensures TakeLine(EntryHeading(n) + CRLF + tail) == Line(EntryHeading(n) + [0], tail)
  {
    DecimalIsPlain(n);
    PlainLine(EntryHeading(n), tail);
  }

  lemma CategoryRead(tail: seq<Code>, r: Reading)
    requires r.sizes != []
    ensures ReadFrom(CategoryHeading() + CRLF + tail, r) == ReadFrom(tail, Reading(r.sizes + [0], r.strings, 35))
  {
    hide TakeLine;
    PlainLine(CategoryHeading(), tail);
    AcceptCategory(r);
  }

  lemma AcceptCategory(r: Reading)
    requires r.sizes != []
    ensures Accept(r, CategoryHeading() + [0]) == Reading(r.sizes + [0], r.strings, 35)
  {
  }

  lemma EntryHeadingRead(n: nat, tail: seq<Code>, r: Reading)
    requires r.sizes != []
    ensures ReadFrom(EntryHeading(n) + CRLF + tail, r) == ReadFrom(tail, r.(second := 69))
  {
    hide TakeLine;
    EntryHeadingLine(n, tail);
  }

  /** An entry the text form can hold. */
  predicate Holds(e: Entry) { 13 !in e && (e != [] ==> e[0] != 35) }

  lemma EntryRead(e: Entry, tail: seq<Code>, r: Reading)
    requires r.sizes != [] && Holds(e)
    ensures ReadFrom(Escape(e) + CRLF + tail, r) ==
      ReadFrom(tail, Reading(Count(r.sizes), r.strings + [e + [0]], Second(e + [0], r.second)))
  {
    hide TakeLine;
    EscapedLine(e, tail);
    assert (e + [0])[0] != 35;
    assert Escape(e) + CRLF + tail != [];
  }

  function Sum(s: seq<nat>): nat { if s == [] then 0 else s[0] + Sum(s[1..]) }

  function Terminated(entries: seq<Entry>): seq<seq<Code>> {
    seq(|entries|, i requires 0 <= i < |entries| => entries[i] + [0])
  }

  /** One entry of the text, with the category heading that may follow it. */
  lemma BodyRead(t: Table, k: nat, c: nat, left: nat, r: Reading)
    requires k < |t.entries| && Holds(t.entries[k]) && r.sizes != []
    ensures var left' := (left - 1) % TWO_TO_THE_32;
      var r1 := Reading(Count(r.sizes), r.strings + [t.entries[k] + [0]], Second(t.entries[k] + [0], 69));
      ReadFrom(Body(t, k, c, left), r) ==
        if left' == 0 && k < |t.entries| - 1
        then ReadFrom(Body(t, k + 1, c + 1, CategorySize(t, c + 1)), Reading(r1.sizes + [0], r1.strings, 35))
        else ReadFrom(Body(t, k + 1, c, left'), r1)
  {
    hide ReadFrom, Escape, EntryHeading, Holds, CategoryHeading;
    var left' := (left - 1) % TWO_TO_THE_32;
    var e := t.entries[k];
    var r1 := Reading(Count(r.sizes), r.strings + [e + [0]], Second(e + [0], 69));
    var heading := left' == 0 && k < |t.entries| - 1;
    var tail := if heading then CategoryHeading() + CRLF + Body(t, k + 1, c + 1, CategorySize(t, c + 1)) else Body(t, k + 1, c, left');
    var h := EntryHeading(k + 1) + CRLF;
    assert Body(t, k, c, left) == h + (Escape(e) + CRLF) + tail == h + (Escape(e) + CRLF + tail);
    EntryHeadingRead(k + 1, Escape(e) + CRLF + tail, r);
    EntryRead(e, tail, r.(second := 69));
    if heading { CategoryRead(Body(t, k + 1, c + 1, CategorySize(t, c + 1)), r1); }
  }

  ghost predicate AllHold(t: Table) { forall e :: e in t.entries ==> Holds(e) }

  /** No empty category, unless the table is one empty category. */
  predicate SizesHold(sizes: seq<nat>) { sizes == [0] || (sizes != [] && 0 !in sizes) }

  /** Where reading is after k entries, with `left` of category c to come. */
  ghost predicate ReadSoFar(t: Table, k: nat, c: nat, left: nat, r: Reading) {
    && k <= |t.entries| && c < |t.categories| && left <= t.categories[c]
    && left + Sum(t.categories[c + 1..]) == |t.entries| - k
    && (k < |t.entries| ==> left > 0)
    && r.sizes == [0] + t.categories[..c] + [t.categories[c] - left]
    && r.strings == Terminated(t.entries[..k])
  }

  lemma NextEntry(t: Table, k: nat, c: nat, left: nat, r: Reading, r1: Reading)
    requires SizesHold(t.categories) && ReadSoFar(t, k, c, left, r) && k < |t.entries|
    requires r1.sizes == Count(r.sizes) && r1.strings == r.strings + [t.entries[k] + [0]]
    ensures left > 1 || k + 1 == |t.entries| ==> ReadSoFar(t, k + 1, c, left - 1, r1)
    ensures left == 1 && k + 1 < |t.entries| ==>
      c + 1 < |t.categories| && ReadSoFar(t, k + 1, c + 1, t.categories[c + 1], Reading(r1.sizes + [0], r1.strings, 35))
  {
    assert t.entries[..k + 1] == t.entries[..k] + [t.entries[k]];
    if left == 1 && k + 1 < |t.entries| {
      assert t.categories[c + 1..] != [];
      assert t.categories[c + 1..][1..] == t.categories[c + 2..];
      assert t.categories[..c + 1] == t.categories[..c] + [t.categories[c]];
      assert t.categories[c + 1] in t.categories;
    }
  }

  lemma BodyStep(t: Table, k: nat, c: nat, left: nat, r: Reading) returns (c': nat, left': nat, r': Reading)
    requires SizesHold(t.categories) && ReadSoFar(t, k, c, left, r) && 0 < left < TWO_TO_THE_32
    requires k < |t.entries| && Holds(t.entries[k])
    ensures ReadSoFar(t, k + 1, c', left', r') && (left' < left || left' in t.categories)
    ensures ReadFrom(Body(t, k, c, left), r) == ReadFrom(Body(t, k + 1, c', left'), r')
  {
    hide ReadFrom, Body, Holds;
    var e := t.entries[k];
    BodyRead(t, k, c, left, r);
    var r1 := Reading(Count(r.sizes), r.strings + [e + [0]], Second(e + [0], 69));
    NextEntry(t, k, c, left, r, r1);
    assert (left - 1) % TWO_TO_THE_32 == left - 1;
    c', left', r' := c, left - 1, r1;
    if left == 1 && k + 1 < |t.entries| {
      c', left', r' := c + 1, t.categories[c + 1], Reading(r1.sizes + [0], r1.strings, 35);
    }
  }

  lemma {:induction false} BodyComesBack(t: Table, k: nat, c: nat, left: nat, r: Reading)
    requires AllHold(t) && SizesHold(t.categories) && ReadSoFar(t, k, c, left, r) && left < TWO_TO_THE_32
    requires forall size :: size in t.categories ==> size < TWO_TO_THE_32
    ensures var r' := ReadFrom(Body(t, k, c, left), r);
      r'.sizes == [0] + t.categories && r'.strings == Terminated(t.entries)
    decreases |t.entries| - k
  {
    if k == |t.entries| {
      AllRead(t, c, left, r);
    } else {
      assert k < |t.entries| && left > 0;
      hide ReadSoFar, ReadFrom, Body, SizesHold, Holds, Terminated;
      assert t.entries[k] in t.entries;
      var c', left', r' := BodyStep(t, k, c, left, r);
      BodyComesBack(t, k + 1, c', left', r');
    }
  }

  lemma AllRead(t: Table, c: nat, left: nat, r: Reading)
    requires SizesHold(t.categories) && ReadSoFar(t, |t.entries|, c, left, r)
    ensures r.sizes == [0] + t.categories && r.strings == Terminated(t.entries)
  {
    var rest := t.categories[c + 1..];
    if rest != [] {
      assert rest[0] in t.categories;
      assert Sum(rest) >= rest[0];
    }
    assert t.categories == t.categories[..c] + [t.categories[c]] + rest;
    assert t.entries[..|t.entries|] == t.entries;
  }

  // ---- what reading can give at all ----

  /** Whatever the text, no string read contains a carriage return or starts with '#'. */
  ghost predicate StringsHold(strings: seq<seq<Code>>) {
    forall s :: s in strings ==> 13 !in s && s != [] && s[0] != 35
  }

  lemma {:induction false} LineHasNoReturn(s: seq<Code>)
    ensures 13 !in TakeLine(s).units
    decreases |s|
  {
    if s == [] || s[0] == 13 {
    } else if s[0] == 92 {
      LineHasNoReturn(Drop(s, 2));
    } else {
      LineHasNoReturn(s[1..]);
    }
  }

  lemma {:induction false} ReadingHolds(s: seq<Code>, r: Reading)
    requires r.sizes != [] && StringsHold(r.strings)
    ensures StringsHold(ReadFrom(s, r).strings)
    decreases |s|
  {
    if s != [] {
      TakeLineShrinks(s);
      LineHasNoReturn(s);
      ReadingHolds(TakeLine(s).rest, Accept(r, TakeLine(s).units));
    }
  }

  /** An entry that the form cannot hold is not among the strings read. */
  lemma BadEntryIsLost(e: Entry, strings: seq<seq<Code>>)
    requires !Holds(e) && StringsHold(strings)
    ensures e + [0] !in strings
  {
    assert 13 in e ==> 13 in e + [0];
  }

  /** What is read from an export, when only empty categories can go wrong. */
  ghost predicate SizesGrow(t: Table, k: nat, sizes: seq<nat>) {
    && |sizes| >= 2 && sizes[0] == 0
    && (forall i :: 1 <= i < |sizes| - 1 ==> sizes[i] > 0)
    && (sizes[|sizes| - 1] == 0 ==> k < |t.entries| || (t.entries == [] && |sizes| == 2))
  }

  lemma {:induction false} SizesReadHold(t: Table, k: nat, c: nat, left: nat, r: Reading)
    requires AllHold(t) && k <= |t.entries| && SizesGrow(t, k, r.sizes)
    ensures var sizes := ReadFrom(Body(t, k, c, left), r).sizes; SizesGrow(t, |t.entries|, sizes)
    decreases |t.entries| - k
  {
    if k < |t.entries| {
      hide ReadFrom, Body;
      var e := t.entries[k];
      assert e in t.entries;
      BodyRead(t, k, c, left, r);
      var r1 := Reading(Count(r.sizes), r.strings + [e + [0]], Second(e + [0], 69));
      var left' := (left - 1) % TWO_TO_THE_32;
      if left' == 0 && k < |t.entries| - 1 {
        SizesReadHold(t, k + 1, c + 1, CategorySize(t, c + 1), Reading(r1.sizes + [0], r1.strings, 35));
      } else {
        SizesReadHold(t, k + 1, c, left', r1);
      }
    }
  }

  /** A table as the binary form gives it: as many entries as the categories say. */
  ghost predicate WellFormed(t: Table) {
    Sum(t.categories) == |t.entries| && forall size :: size in t.categories ==> size < TWO_TO_THE_32
  }

  ghost predicate ComesBack(t: Table) {
    var r := Import(ExportText(t));
    r.sizes == [0] + t.categories && r.strings == Terminated(t.entries)
  }

  lemma ImportOfExport(t: Table)
    ensures Import(ExportText(t)) == ReadFrom(Body(t, 0, 0, CategorySize(t, 0)), Reading([0, 0], [], 35))
  {
    hide ReadFrom, Body;
    var body := CategoryHeading() + CRLF + Body(t, 0, 0, CategorySize(t, 0));
    assert ExportText(t)[1..] == body;
    CategoryRead(Body(t, 0, 0, CategorySize(t, 0)), Reading([0], [], 0));
    assert [0] + [0] == [0, 0];
  }

  /** Importing an export gives the same category sizes and the same strings exactly when
      every entry is one the text form can hold and no category is empty, or the table is
      one empty category. */
  lemma ComesBackIff(t: Table)
    requires WellFormed(t)
    ensures ComesBack(t) <==> AllHold(t) && SizesHold(t.categories)
  {
    hide ReadFrom, Body, Accept;
    ImportOfExport(t);
    if AllHold(t) && SizesHold(t.categories) {
      WholeTableComesBack(t);
    } else if AllHold(t) {
      SizesReadHold(t, 0, 0, CategorySize(t, 0), Reading([0, 0], [], 35));
      BadSizesAreLost(t, ReadFrom(Body(t, 0, 0, CategorySize(t, 0)), Reading([0, 0], [], 35)).sizes);
    } else {
      var e :| e in t.entries && !Holds(e);
      ReadingHolds(Body(t, 0, 0, CategorySize(t, 0)), Reading([0, 0], [], 35));
      BadEntryIsLost(e, Import(ExportText(t)).strings);
      TerminatedHas(t.entries, e);
    }
  }

  lemma TerminatedHas(entries: seq<Entry>, e: Entry)
    requires e in entries
    ensures e + [0] in Terminated(entries)
  {
    var i :| 0 <= i < |entries| && entries[i] == e;
    assert Terminated(entries)[i] == e + [0];
  }

  lemma WholeTableComesBack(t: Table)
    requires WellFormed(t) && AllHold(t) && SizesHold(t.categories)
    ensures ComesBack(t)
  {
    hide ReadFrom, Body;
    ImportOfExport(t);
    assert t.categories[0] in t.categories;
    assert ReadSoFar(t, 0, 0, t.categories[0], Reading([0, 0], [], 35));
    BodyComesBack(t, 0, 0, t.categories[0], Reading([0, 0], [], 35));
  }

  lemma BadSizesAreLost(t: Table, sizes: seq<nat>)
    requires WellFormed(t) && !SizesHold(t.categories) && SizesGrow(t, |t.entries|, sizes)
    ensures sizes != [0] + t.categories
  {
    if 0 in t.categories {
      var i :| 0 <= i < |t.categories| && t.categories[i] == 0;
      assert ([0] + t.categories)[i + 1] == 0;
    }
  }

  // ---- the binary form ----

  /** A 32-bit number as two units, the low one first. */
  function Pair(n: nat): seq<Code> { [n % 0x1_0000, n / 0x1_0000 % 0x1_0000] }

  function Pairs(ns: seq<nat>): seq<Code> { if ns == [] then [] else Pair(ns[0]) + Pairs(ns[1..]) }

  function Flat(strings: seq<seq<Code>>): seq<Code> { if strings == [] then [] else strings[0] + Flat(strings[1..]) }

  /** Byte offsets of the strings, the first one at `base`. */
  function Offsets(strings: seq<seq<Code>>, base: nat): seq<nat> {
    if strings == [] then [] else [base] + Offsets(strings[1..], base + 2 * |strings[0]|)
  }

  /** The file the import writes: category count and sizes, offsets, strings, a trailer. */
  function Image(r: Reading): seq<Code>
    requires r.sizes != []
  {
    var categories := r.sizes[1..];
    var base := 4 * |categories| + 4 + 4 * |r.strings|;
    Pairs([|categories|] + categories + Offsets(r.strings, base)) + (Flat(r.strings) + [0x00, 0x3F])
  }

  /** A file with one category of one string, unit by unit: the count, the size and the
      offset in 32 bits each, the string, the trailer. */
  lemma SmallImage(second: Code)
    ensures Image(Reading([0, 1], [[65, 0]], second)) == [1, 0, 1, 0, 12, 0, 65, 0, 0, 0x3F]
  {
    var r := Reading([0, 1], [[65, 0]], second);
    assert r.sizes[1..] == [1] && [1] + [1] + Offsets(r.strings, 12) == [1, 1, 12];
    assert Pairs([1, 1, 12]) == Pair(1) + (Pair(1) + (Pair(12) + []));
    assert Flat(r.strings) == [65, 0];
  }

  /** What lies behind the file in its buffer is zero. */
  function At(buffer: seq<Code>, i: nat): Code { if i < |buffer| then buffer[i] else 0 }

  function Number(buffer: seq<Code>, i: nat): nat { At(buffer, i) + 0x1_0000 * At(buffer, i + 1) }

  function StringAt(buffer: seq<Code>, i: nat): Entry
    decreases |buffer| - i
  {
    if At(buffer, i) == 0 then [] else [At(buffer, i)] + StringAt(buffer, i + 1)
  }

  function Categories(buffer: seq<Code>): seq<nat> {
    seq(Number(buffer, 0), c requires 0 <= c => Number(buffer, 2 + 2 * c))
  }

  function ReadTable(buffer: seq<Code>): Table {
    var sizes := Categories(buffer);
    Table(sizes, seq(Sum(sizes), k requires 0 <= k => StringAt(buffer, Number(buffer, 2 + 2 * |sizes| + 2 * k) / 2)))
  }

  lemma {:induction false} PairsLength(ns: seq<nat>)
    ensures |Pairs(ns)| == 2 * |ns|
  {
    if ns != [] { PairsLength(ns[1..]); }
  }

  lemma {:induction false} NumberInPairs(ns: seq<nat>, tail: seq<Code>, k: nat)
    requires k < |ns| && ns[k] < TWO_TO_THE_32
    ensures Number(Pairs(ns) + tail, 2 * k) == ns[k]
    decreases k
  {
    var rest := Pairs(ns[1..]) + tail;
    assert Pairs(ns) + tail == Pair(ns[0]) + rest;
    if k > 0 {
      NumberInPairs(ns[1..], tail, k - 1);
      assert At(Pair(ns[0]) + rest, 2 * k) == At(rest, 2 * (k - 1));
      assert At(Pair(ns[0]) + rest, 2 * k + 1) == At(rest, 2 * (k - 1) + 1);
    } else {
      assert ns[0] == ns[0] % 0x1_0000 + 0x1_0000 * (ns[0] / 0x1_0000);
    }
  }

  lemma {:induction false} StringInBuffer(before: seq<Code>, e: Entry, tail: seq<Code>)
    requires 0 !in e
    ensures StringAt(before + (e + [0] + tail), |before|) == e
    decreases |e|
  {
    var buffer := before + (e + [0] + tail);
    if e != [] {
      assert e[0] in e && At(buffer, |before|) == e[0];
      StringInBuffer(before + [e[0]], e[1..], tail);
      assert before + [e[0]] + (e[1..] + [0] + tail) == buffer;
    } else {
      assert At(buffer, |before|) == 0;
    }
  }

  lemma {:induction false} OffsetsLength(strings: seq<seq<Code>>, base: nat)
    ensures |Offsets(strings, base)| == |strings|
    decreases |strings|
  {
    if strings != [] { OffsetsLength(strings[1..], base + 2 * |strings[0]|); }
  }

  /** The k-th offset leads to the k-th string. */
  lemma {:induction false} StringAtOffset(before: seq<Code>, strings: seq<seq<Code>>, tail: seq<Code>, k: nat, e: Entry)
    requires k < |strings| && strings[k] == e + [0] && 0 !in e
    ensures |Offsets(strings, 2 * |before|)| == |strings|
    ensures Offsets(strings, 2 * |before|)[k] <= 2 * |before + Flat(strings)|
    ensures StringAt(before + (Flat(strings) + tail), Offsets(strings, 2 * |before|)[k] / 2) == e
    decreases k
  {
    OffsetsLength(strings, 2 * |before|);
    var rest := Flat(strings[1..]);
    if k == 0 {
      assert before + (Flat(strings) + tail) == before + (e + [0] + (rest + tail));
      StringInBuffer(before, e, rest + tail);
    } else {
      StringAtOffset(before + strings[0], strings[1..], tail, k - 1, e);
      assert before + (Flat(strings) + tail) == before + strings[0] + (rest + tail);
      assert before + Flat(strings) == before + strings[0] + rest;
    }
  }

  /** The table fits the 32-bit numbers of the binary form. */
  ghost predicate Fits(t: Table) {
    && 4 * |t.categories| + 4 + 4 * |t.entries| + 2 * |Flat(Terminated(t.entries))| < TWO_TO_THE_32
    && (forall size :: size in t.categories ==> size < TWO_TO_THE_32)
    && (forall e :: e in t.entries ==> 0 !in e)
  }

  /** The binary form is read back as written: the same sizes, and at each offset the string. */
  lemma ImageReadsBack(t: Table, r: Reading)
    requires Fits(t) && WellFormed(t)
    requires r.sizes == [0] + t.categories && r.strings == Terminated(t.entries)
    ensures ReadTable(Image(r)) == t
  {
    hide Pairs, Offsets, Flat, Number, StringAt, Sum;
    var base := 4 * |t.categories| + 4 + 4 * |t.entries|;
    var offsets := Offsets(r.strings, base);
    OffsetsLength(r.strings, base);
    var numbers := [|t.categories|] + t.categories + offsets;
    var tail := Flat(r.strings) + [0x00, 0x3F];
    assert r.sizes[1..] == t.categories;
    var buffer := Image(r);
    assert buffer == Pairs(numbers) + tail;
    PairsLength(numbers);
    NumberInPairs(numbers, tail, 0);
    forall c | 0 <= c < |t.categories| ensures Number(buffer, 2 + 2 * c) == t.categories[c] {
      assert numbers[1 + c] == t.categories[c] && t.categories[c] in t.categories;
      NumberInPairs(numbers, tail, 1 + c);
    }
    assert Categories(buffer) == t.categories;
    forall k | 0 <= k < |t.entries|
      ensures StringAt(buffer, Number(buffer, 2 + 2 * |t.categories| + 2 * k) / 2) == t.entries[k]
    {
      assert t.entries[k] in t.entries;
      StringAtOffset(Pairs(numbers), r.strings, [0x00, 0x3F], k, t.entries[k]);
      assert numbers[1 + |t.categories| + k] == offsets[k];
      NumberInPairs(numbers, tail, 1 + |t.categories| + k);
    }
  }

  /** Importing the exported text rebuilds the table. */
  lemma RoundTrip(t: Table)
    requires WellFormed(t) && Fits(t) && AllHold(t) && SizesHold(t.categories)
    ensures ReadTable(Image(Import(ExportText(t)))) == t
  {
    hide Import, ExportText, Image, ReadTable;
    ComesBackIff(t);
    ImageReadsBack(t, Import(ExportText(t)));
  }

  /** A table whose only entry starts with '#' comes back without it. */
  lemma HashEntryIsLost()
    ensures var t := Table([1], [[35]]); WellFormed(t) && Fits(t) && !ComesBack(t)
  {
    var t := Table([1], [[35]]);
    assert Sum([1]) == 1 + Sum([1][1..]);
    assert Flat(Terminated(t.entries)) == [35, 0] + Flat([]);
    assert t.entries[0] in t.entries && !Holds(t.entries[0]);
    ComesBackIff(t);
  }

  // ---- the two loops ----

  lemma {:induction false} FlatAppend(strings: seq<seq<Code>>, s: seq<Code>)
    ensures Flat(strings + [s]) == Flat(strings) + s
  {
    if strings == [] {
      assert strings + [s] == [s] && [s][1..] == [];
      assert Flat([s]) == s + Flat([]);
    } else {
      FlatAppend(strings[1..], s);
      assert (strings + [s])[1..] == strings[1..] + [s];
    }
  }

  lemma {:induction false} OffsetsAppend(strings: seq<seq<Code>>, s: seq<Code>, base: nat)
    ensures Offsets(strings + [s], base) == Offsets(strings, base) + [base + 2 * |Flat(strings)|]
    decreases |strings|
  {
    if strings == [] {
      assert strings + [s] == [s] && [s][1..] == [];
      assert Offsets([s], base) == [base] + Offsets([], base + 2 * |s|) == [base];
    } else {
      var rest, next := strings[1..], base + 2 * |strings[0]|;
      OffsetsAppend(rest, s, next);
      assert (strings + [s])[0] == strings[0] && (strings + [s])[1..] == rest + [s];
      assert Offsets(strings + [s], base) == [base] + Offsets(rest + [s], next);
      assert |Flat(strings)| == |strings[0]| + |Flat(rest)|;
    }
  }

  lemma {:induction false} OffsetsShift(strings: seq<seq<Code>>, start: nat, d: nat, k: nat)
    requires k < |strings|
    ensures |Offsets(strings, start)| == |Offsets(strings, start + d)| == |strings|
    ensures Offsets(strings, start + d)[k] == Offsets(strings, start)[k] + d
    decreases |strings|
  {
    OffsetsLength(strings, start);
    OffsetsLength(strings, start + d);
    if k > 0 { OffsetsShift(strings[1..], start + 2 * |strings[0]|, d, k - 1); }
  }

  lemma StringUnfolds(buffer: seq<Code>, i: nat)
    ensures At(buffer, i) == 0 ==> Escape(StringAt(buffer, i)) == []
    ensures At(buffer, i) != 0 ==>
      Escape(StringAt(buffer, i)) == EscapeCode(At(buffer, i)) + Escape(StringAt(buffer, i + 1))
  {
    assert At(buffer, i) != 0 ==> StringAt(buffer, i)[1..] == StringAt(buffer, i + 1);
  }

  /** The string loop of the export. */
  method WriteEntry(buffer: seq<Code>, start: nat) returns (twobyte: seq<Code>)
    ensures twobyte == Escape(StringAt(buffer, start))
  {
    hide Escape, StringAt;
    var ch := start;
    twobyte := [];
    while At(buffer, ch) != 0
      invariant twobyte + Escape(StringAt(buffer, ch)) == Escape(StringAt(buffer, start))
      decreases |buffer| - ch
    {
      var u := At(buffer, ch);
      StringUnfolds(buffer, ch);
      if u == 9 { twobyte := twobyte + [92, 116]; }
      else if u == 10 { twobyte := twobyte + [92, 110]; }
      else if u == 92 { twobyte := twobyte + [92, 92]; }
      else { twobyte := twobyte + [u]; }
      ch := ch + 1;
    }
    StringUnfolds(buffer, ch);
  }

  /** The sum of the category sizes, which the export starts with. */
  method CountEntries(sizes: seq<nat>) returns (total: nat)
    ensures total == Sum(sizes)
  {
    total := 0;
    for ch := 0 to |sizes|
      invariant total + Sum(sizes[ch..]) == Sum(sizes)
    {
      assert sizes[ch..][1..] == sizes[ch + 1..];
      total := total + sizes[ch];
    }
  }

  /** One turn of the export loop completes the text by the next part of the body. */
  lemma BodyUnfolds(text: seq<Code>, t: Table, k: nat, c: nat, left: nat)
    requires k < |t.entries|
    ensures var left' := (left - 1) % TWO_TO_THE_32;
      var text' := text + EntryHeading(k + 1) + CRLF + Escape(t.entries[k]) + CRLF;
      text + Body(t, k, c, left) ==
        if left' == 0 && k < |t.entries| - 1
        then text' + CategoryHeading() + CRLF + Body(t, k + 1, c + 1, CategorySize(t, c + 1))
        else text' + Body(t, k + 1, c, left')
  {
    hide EntryHeading, Escape, CategoryHeading;
  }

  lemma ExportStartsAndEnds(t: Table, c: nat, left: nat)
    ensures ExportText(t) == [0xFEFF] + CategoryHeading() + CRLF + Body(t, 0, 0, CategorySize(t, 0))
    ensures Body(t, |t.entries|, c, left) == []
  {
  }

  /** The export loop: the text of the table in the buffer. */
  method Export(buffer: seq<Code>) returns (text: seq<Code>)
    ensures text == ExportText(ReadTable(buffer))
  {
    hide Body, Categories, Sum, Number, StringAt, ExportText, CategoryHeading;
    ghost var t := ReadTable(buffer);
    var sizes := Categories(buffer);
    var total := CountEntries(sizes);
    text := [0xFEFF] + CategoryHeading() + CRLF;
    var ch6: nat, ch7: nat := 0, if sizes != [] then sizes[0] else 0;
    ExportStartsAndEnds(t, 0, 0);
    for ch5 := 0 to total
      invariant total == |t.entries| && text + Body(t, ch5, ch6, ch7) == ExportText(t)
    {
      var start := Number(buffer, 2 + 2 * |sizes| + 2 * ch5) / 2;
      text, ch6, ch7 := ExportEntry(t, buffer, start, sizes, total, ch5, ch6, ch7, text);
    }
    ExportStartsAndEnds(t, ch6, ch7);
  }

  /** One turn of the export loop: the entry, and the heading of the next category. */
  method ExportEntry(ghost t: Table, buffer: seq<Code>, start: nat, sizes: seq<nat>, total: nat,
                     ch5: nat, category: nat, left: nat, before: seq<Code>)
    returns (text: seq<Code>, ch6: nat, ch7: nat)
    requires sizes == t.categories && total == |t.entries| && ch5 < total
    requires t.entries[ch5] == StringAt(buffer, start)
    ensures text + Body(t, ch5 + 1, ch6, ch7) == before + Body(t, ch5, category, left)
  {
    hide Body, StringAt, EntryHeading, Escape, CategoryHeading;
    BodyUnfolds(before, t, ch5, category, left);
    var twobyte := WriteEntry(buffer, start);
    text := before + EntryHeading(ch5 + 1) + CRLF + twobyte + CRLF;
    ch6, ch7 := category, (left - 1) % TWO_TO_THE_32;
    if ch7 == 0 && ch5 < total - 1 {
      ch6 := ch6 + 1;
      ch7 := if ch6 < |sizes| then sizes[ch6] else 0;
      text := text + CategoryHeading() + CRLF;
    }
  }

  lemma TakeLineAt(text: seq<Code>, ch: nat)
    ensures ch >= |text| ==> TakeLine(Drop(text, ch)) == Line([], [])
    ensures ch < |text| && text[ch] == 13 ==> TakeLine(Drop(text, ch)) == Line([0], Drop(text, ch + 2))
    ensures ch < |text| && text[ch] == 92 ==> var l := TakeLine(Drop(text, ch + 2));
      TakeLine(Drop(text, ch)) == Line([Unescape(At(text, ch + 1))] + l.units, l.rest)
    ensures ch < |text| && text[ch] != 13 && text[ch] != 92 ==> var l := TakeLine(Drop(text, ch + 1));
      TakeLine(Drop(text, ch)) == Line([text[ch]] + l.units, l.rest)
  {
    if ch < |text| {
      var s := Drop(text, ch);
      assert s[0] == text[ch] && Drop(s, 2) == Drop(text, ch + 2) && s[1..] == Drop(text, ch + 1);
    }
  }

  /** The line buffer holds the line that starts at `start` as far as ch. */
  ghost predicate Partly(text: seq<Code>, start: nat, line: seq<Code>, ch: nat) {
    var l := TakeLine(Drop(text, ch));
    TakeLine(Drop(text, start)) == Line(line + l.units, l.rest)
  }

  lemma NothingRead(text: seq<Code>, start: nat)
    ensures Partly(text, start, [], start)
  {
  }

  lemma NothingStored()
    ensures Flat([]) == [] && Offsets([], 0) == []
  {
  }

  lemma LineGrows(text: seq<Code>, start: nat, line: seq<Code>, ch: nat)
    requires Partly(text, start, line, ch)
    ensures ch >= |text| ==> TakeLine(Drop(text, start)) == Line(line, Drop(text, ch))
    ensures ch < |text| && text[ch] == 13 ==> TakeLine(Drop(text, start)) == Line(line + [0], Drop(text, ch + 2))
    ensures ch < |text| && text[ch] == 92 ==> Partly(text, start, line + [Unescape(At(text, ch + 1))], ch + 2)
    ensures ch < |text| && text[ch] != 13 && text[ch] != 92 ==> Partly(text, start, line + [text[ch]], ch + 1)
  {
    hide TakeLine, Unescape;
    TakeLineAt(text, ch);
  }

  /** The inner loop of the import: one line into the line buffer. */
  method ReadLine(text: seq<Code>, start: nat) returns (line: seq<Code>, ch: nat)
    requires start < |text|
    ensures ch > start && TakeLine(Drop(text, start)) == Line(line, Drop(text, ch)) && line != []
  {
    hide TakeLine, Drop, Partly, Unescape;
    line, ch := [], start;
    NothingRead(text, start);
    while ch < |text|
      invariant ch >= start && (line == [] ==> ch == start) && Partly(text, start, line, ch)
      decreases |text| - ch
    {
      LineGrows(text, start, line, ch);
      var u := text[ch];
      if u != 13 {
        ch := ch + 1;
        if u == 92 {
          u := Unescape(At(text, ch));
          ch := ch + 1;
        }
        line := line + [u];
      } else {
        ch := ch + 2;
        line := line + [0];
        return;
      }
    }
    LineGrows(text, start, line, ch);
  }

  /** The import loop: sizes, strings one behind the other, and where each of them starts. */
  method ReadLines(text: seq<Code>)
    returns (sizes: seq<nat>, newBuffer: seq<Code>, uniOffsets: seq<nat>, second: Code, ghost strings: seq<seq<Code>>)
    ensures sizes != [] && Reading(sizes, strings, second) == Import(text)
    ensures newBuffer == Flat(strings) && uniOffsets == Offsets(strings, 0)
  {
    hide ReadFrom, TakeLine, Flat, Offsets;
    var ch := if text != [] && text[0] == 0xFEFF then 1 else 0;
    sizes, newBuffer, uniOffsets, second, strings := [0], [], [], 0, [];
    NothingStored();
    while ch < |text|
      invariant sizes != [] && newBuffer == Flat(strings) && uniOffsets == Offsets(strings, 0)
      invariant ReadFrom(Drop(text, ch), Reading(sizes, strings, second)) == Import(text)
      decreases |text| - ch
    {
      hide Import;
      var line, next := ReadLine(text, ch);
      ReadFromUnfolds(Drop(text, ch), Reading(sizes, strings, second));
      second := if |line| > 1 then line[1] else second;
      if line[0] == 35 {
        if second == 35 { sizes := sizes + [0]; }
      } else {
        FlatAppend(strings, line);
        OffsetsAppend(strings, line, 0);
        sizes := sizes[|sizes| - 1 := sizes[|sizes| - 1] + 1];
        uniOffsets := uniOffsets + [2 * |newBuffer|];
        newBuffer := newBuffer + line;
        strings := strings + [line];
      }
      ch := next;
    }
    ReadFromUnfolds(Drop(text, ch), Reading(sizes, strings, second));
  }

  /** The offsets, counted from the start of the file. */
  method ShiftOffsets(uniOffsets: seq<nat>, offset: nat, ghost strings: seq<seq<Code>>) returns (shifted: seq<nat>)
    requires uniOffsets == Offsets(strings, 0)
    ensures shifted == Offsets(strings, offset)
  {
    hide Offsets;
    OffsetsLength(strings, 0);
    OffsetsLength(strings, offset);
    shifted := [];
    for k := 0 to |uniOffsets|
      invariant shifted == Offsets(strings, offset)[..k]
    {
      OffsetsShift(strings, 0, offset, k);
      shifted := shifted + [uniOffsets[k] + offset];
    }
  }

  /** The import: the binary form of the text. */
  method MakeTable(text: seq<Code>) returns (image: seq<Code>)
    ensures image == Image(Import(text))
  {
    hide Import, Pairs, Flat, Offsets;
    var sizes, newBuffer, uniOffsets, second, strings := ReadLines(text);
    OffsetsLength(strings, 0);
    var count := |sizes| - 1;
    var offset := 4 * count + 4 + 4 * |uniOffsets|;
    var shifted := ShiftOffsets(uniOffsets, offset, strings);
    image := Pairs([count] + sizes[1..] + shifted) + (newBuffer + [0x00, 0x3F]);
  }

  lemma ReadFromUnfolds(s: seq<Code>, r: Reading)
    requires r.sizes != []
    ensures s == [] ==> ReadFrom(s, r) == r
    ensures s != [] ==> TakeLine(s).units != [] && ReadFrom(s, r) == ReadFrom(TakeLine(s).rest, Accept(r, TakeLine(s).units))
  {
    if s != [] { TakeLineShrinks(s); }
  }
}
