/** What one overlay draw puts on the strip: the panel layout, the writes
    drawNumber and handleOverlayDraw make, and what those writes show. */
module Overlay {
  import opened Host
  import opened Glyphs

  /** The first LED of each digit panel and the two colon LEDs. The
      minute panels are drawn tens at BaseM and ones at BaseMM. */
  const BaseH := 8
  const BaseHH := 36
  const BaseM := 78
  const BaseMM := 106
  const Colon0 := 64
  const Colon1 := 65

  /** The tens digit `(v / 10) % 10` of a clock value. Values are never
      negative, where C++'s truncating division agrees with Dafny's. */
  function Tens(v: nat): (r: int)
    ensures IsDigit(r)
    ensures v < 100 ==> r == v / 10
  {
    (v / 10) % 10
  }

  /** The ones digit `v % 10` of a clock value: the digit that differs
      from v by a multiple of ten. */
  function Ones(v: nat): (r: int)
    ensures IsDigit(r)
    ensures (v - r) % 10 == 0
    ensures v < 10 ==> r == v
  {
    v % 10
  }

  /** The two digits of a value below 100 give the value back. */
  lemma DigitsRecompose(v: nat)
    requires v < 100
    ensures 10 * Tens(v) + Ones(v) == v
  {
  }

  /** One write of colour c at base + o for each offset o, in order. */
  function Paint(base: int, offsets: seq<int>, c: Color): seq<PixelWrite>
  {
    if offsets == [] then []
    else [PixelWrite(base + offsets[0], c)] + Paint(base, offsets[1..], c)
  }

  lemma {:induction false} PaintAt(base: int, offsets: seq<int>, c: Color)
    ensures |Paint(base, offsets, c)| == |offsets|
    ensures forall i :: 0 <= i < |offsets| ==> Paint(base, offsets, c)[i] == PixelWrite(base + offsets[i], c)
  {
    if offsets != [] {
      PaintAt(base, offsets[1..], c);
    }
  }

  /** Painting the lit entries of a row from slot i on is painting slot i
      if it is lit, then the rest. */
  lemma PaintLitStep(base: int, row: seq<int>, i: nat, c: Color)
    requires i < |row|
    ensures Paint(base, LitFrom(row, i), c)
      == (if row[i] > Sentinel then [PixelWrite(row[i] + base, c)] else []) + Paint(base, LitFrom(row, i + 1), c)
  {
    var rest := LitFrom(row, i + 1);
    if row[i] > Sentinel {
      var l := [row[i]] + rest;
      assert LitFrom(row, i) == l;
      assert l[0] == row[i] && l[1..] == rest;
    } else {
      assert LitFrom(row, i) == rest;
    }
  }

  /** The writes drawNumber(base, d) makes, in order: every digit lights
      at least five LEDs and at most one per slot of its glyph row. */
  function DigitWrites(base: int, d: int, c: Color): (w: seq<PixelWrite>)
    requires IsDigit(d)
    ensures 5 <= |w| <= RowLength
  {
    GlyphLightsFive(d);
    GlyphRowLength(d);
    PaintAt(base, LitOffsets(Numbers[d]), c);
    Paint(base, LitOffsets(Numbers[d]), c)
  }

  /** The colon writes, made only while the colon is on. */
  function ColonWrites(colonOn: bool, c: Color): (w: seq<PixelWrite>)
    ensures |w| == (if colonOn then 2 else 0)
    ensures forall i :: 0 <= i < |w| ==> w[i] == PixelWrite(Colon0 + i, c)
  {
    if colonOn then [PixelWrite(Colon0, c), PixelWrite(Colon1, c)] else []
  }

  /** The writes handleOverlayDraw makes at hour:minute, in order: nothing
      when the clock is disabled; otherwise the colon if it is on, then the
      tens and ones of the hour and the tens and ones of the minute. It
      writes nothing exactly when the clock is disabled: an enabled clock
      always lights its four digits, five to ten LEDs each. */
  function OverlayWrites(enabled: bool, colonOn: bool, hour: nat, minute: nat, c: Color): (w: seq<PixelWrite>)
    ensures w == [] <==> !enabled
    ensures enabled ==> 20 <= |w| <= 42
  {
    if !enabled then []
    else
      ColonWrites(colonOn, c)
      + DigitWrites(BaseHH, Tens(hour), c) + DigitWrites(BaseH, Ones(hour), c)
      + DigitWrites(BaseM, Tens(minute), c) + DigitWrites(BaseMM, Ones(minute), c)
  }

  /** The LED indices written, in order. */
  function Indices(w: seq<PixelWrite>): seq<int>
  {
    seq(|w|, i requires 0 <= i < |w| => w[i].index)
  }

  ghost predicate NoPixelTwice(w: seq<PixelWrite>)
  {
    forall i, j :: 0 <= i < j < |w| ==> w[i].index != w[j].index
  }

  ghost predicate WithinRange(w: seq<PixelWrite>, lo: int, hi: int)
  {
    forall i :: 0 <= i < |w| ==> lo <= w[i].index <= hi
  }

  ghost predicate OneColour(w: seq<PixelWrite>, c: Color)
  {
    forall i :: 0 <= i < |w| ==> w[i].color == c
  }

  /** Painting the lit entries of a well-formed row writes exactly the
      entries before the first sentinel, at base + entry, in row order. */
  lemma PaintRowExact(base: int, row: seq<int>, c: Color)
    requires WellFormedRow(row)
    ensures var w := Paint(base, LitOffsets(row), c);
      && |w| <= |row|
      && (forall i :: 0 <= i < |w| ==> row[i] > Sentinel && w[i] == PixelWrite(base + row[i], c))
      && (forall i :: |w| <= i < |row| ==> row[i] == Sentinel)
  {
    LitOffsetsPrefix(row);
    LitOffsetsMembers(row);
    PaintAt(base, LitOffsets(row), c);
    var lit := LitOffsets(row);
    forall i | 0 <= i < |lit|
      ensures row[i] > Sentinel && lit[i] == row[i]
    {
      assert lit[i] in lit;
    }
  }

  /** Painting a well-formed row stays inside the 20-LED panel at base,
      in strictly increasing LED order, in one colour. */
  lemma PaintRowInPanel(base: int, row: seq<int>, c: Color)
    requires WellFormedRow(row)
    ensures var w := Paint(base, LitOffsets(row), c);
      && WithinRange(w, base, base + MaxOffset)
      && (forall i, j :: 0 <= i < j < |w| ==> w[i].index < w[j].index)
      && NoPixelTwice(w)
      && OneColour(w, c)
  {
    PaintRowExact(base, row, c);
  }

  /** drawNumber(base, d) writes exactly the entries of row d above the
      sentinel, at base + entry, in table order, in colour c, and nothing
      else: the first |w| slots of the row are lit, the rest are sentinels. */
  lemma DigitWritesExact(base: int, d: int, c: Color)
    requires IsDigit(d)
    ensures var w := DigitWrites(base, d, c);
      && |w| <= RowLength
      && (forall i :: 0 <= i < |w| ==>
            Numbers[d][i] > Sentinel && w[i] == PixelWrite(base + Numbers[d][i], c))
      && (forall i :: |w| <= i < RowLength ==> Numbers[d][i] == Sentinel)
  {
    GlyphRowShape(d);
    PaintRowExact(base, Numbers[d], c);
  }

  /** drawNumber stays inside its 20-LED panel, writes each LED at most once
      (in increasing order), and uses the one colour it is given. */
  lemma DigitWritesInPanel(base: int, d: int, c: Color)
    requires IsDigit(d)
    ensures var w := DigitWrites(base, d, c);
      && WithinRange(w, base, base + MaxOffset)
      && (forall i, j :: 0 <= i < j < |w| ==> w[i].index < w[j].index)
      && NoPixelTwice(w)
      && OneColour(w, c)
  {
    GlyphRowShape(d);
    PaintRowInPanel(base, Numbers[d], c);
  }

  /** drawNumber(8, 1) lights LEDs 21, 22, 23, 26 and 27. */
  lemma DrawOneAtEight(c: Color)
    ensures Indices(DigitWrites(8, 1, c)) == [21, 22, 23, 26, 27]
  {
    DigitWritesExact(8, 1, c);
    assert |DigitWrites(8, 1, c)| == 5 by {
      assert Numbers[1][4] > Sentinel && Numbers[1][5] == Sentinel;
    }
  }

  /** A run of writes inside the LEDs lo..hi, each LED at most once, all in
      colour c. */
  ghost predicate Block(w: seq<PixelWrite>, lo: int, hi: int, c: Color)
  {
    WithinRange(w, lo, hi) && NoPixelTwice(w) && OneColour(w, c)
  }

  /** Two blocks over disjoint LED ranges join into one block. */
  lemma JoinBlocks(a: seq<PixelWrite>, b: seq<PixelWrite>, loA: int, hiA: int, loB: int, hiB: int, c: Color)
    requires Block(a, loA, hiA, c) && Block(b, loB, hiB, c)
    requires hiA < loB || hiB < loA
    ensures Block(a + b, if loA < loB then loA else loB, if hiA < hiB then hiB else hiA, c)
  {
    var w := a + b;
    forall i | 0 <= i < |w|
      ensures w[i] == if i < |a| then a[i] else b[i - |a|]
    {
    }
    forall i, j | 0 <= i < j < |w|
      ensures w[i].index != w[j].index
    {
      if i < |a| && j >= |a| {
        assert w[i] == a[i] && w[j] == b[j - |a|];
      }
    }
  }

  /** The colon and four digit blocks, each inside its own panel, never
      touch the same LED: the panels [8, 27], [36, 55], [78, 97],
      [106, 125] and the colon LEDs 64 and 65 are pairwise disjoint. */
  lemma LayoutBlocks(colon: seq<PixelWrite>, d1: seq<PixelWrite>, d2: seq<PixelWrite>,
                     d3: seq<PixelWrite>, d4: seq<PixelWrite>, c: Color)
    requires Block(colon, Colon0, Colon1, c)
    requires Block(d1, BaseHH, BaseHH + MaxOffset, c) && Block(d2, BaseH, BaseH + MaxOffset, c)
    requires Block(d3, BaseM, BaseM + MaxOffset, c) && Block(d4, BaseMM, BaseMM + MaxOffset, c)
    ensures Block(colon + d1 + d2 + d3 + d4, BaseH, BaseMM + MaxOffset, c)
  {
    JoinBlocks(colon, d1, Colon0, Colon1, BaseHH, BaseHH + MaxOffset, c);
    JoinBlocks(colon + d1, d2, BaseHH, Colon1, BaseH, BaseH + MaxOffset, c);
    JoinBlocks(colon + d1 + d2, d3, BaseH, Colon1, BaseM, BaseM + MaxOffset, c);
    JoinBlocks(colon + d1 + d2 + d3, d4, BaseH, BaseM + MaxOffset, BaseMM, BaseMM + MaxOffset, c);
  }

  lemma ColonBlock(colonOn: bool, c: Color)
    ensures Block(ColonWrites(colonOn, c), Colon0, Colon1, c)
  {
  }

  /** One overlay draw never writes the same LED twice, stays within LEDs
      8..125, and writes every LED in the configured colour. */
  lemma OverlayNoPixelTwice(enabled: bool, colonOn: bool, hour: nat, minute: nat, c: Color)
    ensures NoPixelTwice(OverlayWrites(enabled, colonOn, hour, minute, c))
    ensures OneColour(OverlayWrites(enabled, colonOn, hour, minute, c), c)
    ensures WithinRange(OverlayWrites(enabled, colonOn, hour, minute, c), BaseH, BaseMM + MaxOffset)
  {
    if enabled {
      ColonBlock(colonOn, c);
      DigitWritesInPanel(BaseHH, Tens(hour), c);
      DigitWritesInPanel(BaseH, Ones(hour), c);
      DigitWritesInPanel(BaseM, Tens(minute), c);
      DigitWritesInPanel(BaseMM, Ones(minute), c);
      LayoutBlocks(ColonWrites(colonOn, c),
        DigitWrites(BaseHH, Tens(hour), c), DigitWrites(BaseH, Ones(hour), c),
        DigitWrites(BaseM, Tens(minute), c), DigitWrites(BaseMM, Ones(minute), c), c);
    }
  }

  /** Digits drawn after a colon that shares none of their LEDs do not
      touch the colon LEDs. */
  lemma DigitsAvoidColon(digits: seq<PixelWrite>, c: Color)
    requires NoPixelTwice(ColonWrites(true, c) + digits)
    ensures forall i :: 0 <= i < |digits| ==> digits[i].index != Colon0 && digits[i].index != Colon1
  {
    var w := ColonWrites(true, c) + digits;
    forall i | 0 <= i < |digits|
      ensures digits[i].index != Colon0 && digits[i].index != Colon1
    {
      assert w[0].index == Colon0 && w[1].index == Colon1 && w[i + 2] == digits[i];
    }
  }

  /** The colon drawn before four digit blocks that stay inside their
      panels: the colon LEDs are written exactly when the colon is on, and
      then first. */
  lemma ColonOverDigits(colonOn: bool, d1: seq<PixelWrite>, d2: seq<PixelWrite>,
                        d3: seq<PixelWrite>, d4: seq<PixelWrite>, c: Color)
    requires Block(d1, BaseHH, BaseHH + MaxOffset, c) && Block(d2, BaseH, BaseH + MaxOffset, c)
    requires Block(d3, BaseM, BaseM + MaxOffset, c) && Block(d4, BaseMM, BaseMM + MaxOffset, c)
    ensures var ix := Indices(ColonWrites(colonOn, c) + d1 + d2 + d3 + d4);
      && (Colon0 in ix <==> colonOn)
      && (Colon1 in ix <==> colonOn)
      && (colonOn ==> ix[..2] == [Colon0, Colon1])
  {
    var digits := d1 + d2 + d3 + d4;
    ColonBlock(true, c);
    LayoutBlocks(ColonWrites(true, c), d1, d2, d3, d4, c);
    assert ColonWrites(true, c) + d1 + d2 + d3 + d4 == ColonWrites(true, c) + digits;
    DigitsAvoidColon(digits, c);
    ColonFirst(colonOn, digits, c);
    assert ColonWrites(colonOn, c) + d1 + d2 + d3 + d4 == ColonWrites(colonOn, c) + digits;
  }

  /** The colon LEDs are written exactly when the clock is enabled and the
      colon is on, and then they are the first two writes. */
  lemma OverlayColon(enabled: bool, colonOn: bool, hour: nat, minute: nat, c: Color)
    ensures var ix := Indices(OverlayWrites(enabled, colonOn, hour, minute, c));
      && (Colon0 in ix <==> enabled && colonOn)
      && (Colon1 in ix <==> enabled && colonOn)
      && (enabled && colonOn ==> ix[..2] == [Colon0, Colon1])
  {
    if enabled {
      DigitWritesInPanel(BaseHH, Tens(hour), c);
      DigitWritesInPanel(BaseH, Ones(hour), c);
      DigitWritesInPanel(BaseM, Tens(minute), c);
      DigitWritesInPanel(BaseMM, Ones(minute), c);
      ColonOverDigits(colonOn,
        DigitWrites(BaseHH, Tens(hour), c), DigitWrites(BaseH, Ones(hour), c),
        DigitWrites(BaseM, Tens(minute), c), DigitWrites(BaseMM, Ones(minute), c), c);
    }
  }

  /** A colon block followed by writes that avoid the colon LEDs. */
  lemma ColonFirst(colonOn: bool, rest: seq<PixelWrite>, c: Color)
    requires forall i :: 0 <= i < |rest| ==> rest[i].index != Colon0 && rest[i].index != Colon1
    ensures var ix := Indices(ColonWrites(colonOn, c) + rest);
      && (Colon0 in ix <==> colonOn)
      && (Colon1 in ix <==> colonOn)
      && (colonOn ==> ix[..2] == [Colon0, Colon1])
  {
    var w := ColonWrites(colonOn, c) + rest;
    var ix := Indices(w);
    if colonOn {
      assert ix[0] == Colon0 && ix[1] == Colon1;
    } else {
      assert w == rest;
      forall k | 0 <= k < |ix|
        ensures ix[k] != Colon0 && ix[k] != Colon1
      {
        assert ix[k] == rest[k].index;
      }
    }
  }

  /** The offsets, relative to panel, of the writes that land in the 20-LED
      panel starting at panel, in order: what that panel shows. */
  function PanelOffsets(w: seq<PixelWrite>, panel: int): seq<int>
  {
    if w == [] then []
    else
      (if panel <= w[0].index <= panel + MaxOffset then [w[0].index - panel] else [])
      + PanelOffsets(w[1..], panel)
  }

  lemma {:induction false} PanelOffsetsAppend(a: seq<PixelWrite>, b: seq<PixelWrite>, panel: int)
    ensures PanelOffsets(a + b, panel) == PanelOffsets(a, panel) + PanelOffsets(b, panel)
  {
    if a != [] {
      assert (a + b)[1..] == a[1..] + b;
      PanelOffsetsAppend(a[1..], b, panel);
    } else {
      assert a + b == b;
    }
  }

  /** Writes that all fall outside a panel show nothing on it. */
  lemma {:induction false} PanelOffsetsOutside(w: seq<PixelWrite>, lo: int, hi: int, panel: int)
    requires WithinRange(w, lo, hi)
    requires hi < panel || panel + MaxOffset < lo
    ensures PanelOffsets(w, panel) == []
  {
    if w != [] {
      PanelOffsetsOutside(w[1..], lo, hi, panel);
    }
  }

  /** Every entry is an offset inside a 20-LED panel. */
  ghost predicate PanelOffsetsOnly(offsets: seq<int>)
  {
    forall i :: 0 <= i < |offsets| ==> 0 <= offsets[i] <= MaxOffset
  }

  /** Painting panel offsets at base shows exactly those offsets on the
      panel at base. */
  lemma {:induction false} PanelOffsetsOfPaint(base: int, offsets: seq<int>, c: Color)
    requires PanelOffsetsOnly(offsets)
    ensures PanelOffsets(Paint(base, offsets, c), base) == offsets
    ensures WithinRange(Paint(base, offsets, c), base, base + MaxOffset)
  {
    if offsets != [] {
      PanelOffsetsOfPaint(base, offsets[1..], c);
      assert [offsets[0]] + offsets[1..] == offsets;
    }
  }

  /** The offsets drawNumber paints for digit d are panel offsets. */
  lemma GlyphOffsetsInPanel(d: int)
    requires IsDigit(d)
    ensures PanelOffsetsOnly(LitOffsets(Numbers[d]))
  {
    GlyphRowShape(d);
    LitOffsetsMembers(Numbers[d]);
    var lit := LitOffsets(Numbers[d]);
    forall i | 0 <= i < |lit|
      ensures 0 <= lit[i] <= MaxOffset
    {
      assert lit[i] in lit;
    }
  }

  /** With the colon and four painted panels laid out as handleOverlayDraw
      lays them out, each panel shows exactly the offsets painted on it. */
  lemma LayoutPanels(colon: seq<PixelWrite>, l1: seq<int>, l2: seq<int>, l3: seq<int>, l4: seq<int>, c: Color)
    requires WithinRange(colon, Colon0, Colon1)
    requires PanelOffsetsOnly(l1) && PanelOffsetsOnly(l2) && PanelOffsetsOnly(l3) && PanelOffsetsOnly(l4)
    ensures var w := colon + Paint(BaseHH, l1, c) + Paint(BaseH, l2, c) + Paint(BaseM, l3, c) + Paint(BaseMM, l4, c);
      && PanelOffsets(w, BaseHH) == l1
      && PanelOffsets(w, BaseH) == l2
      && PanelOffsets(w, BaseM) == l3
      && PanelOffsets(w, BaseMM) == l4
  {
    var p1, p2, p3, p4 := Paint(BaseHH, l1, c), Paint(BaseH, l2, c), Paint(BaseM, l3, c), Paint(BaseMM, l4, c);
    PanelOffsetsOfPaint(BaseHH, l1, c);
    PanelOffsetsOfPaint(BaseH, l2, c);
    PanelOffsetsOfPaint(BaseM, l3, c);
    PanelOffsetsOfPaint(BaseMM, l4, c);
    PanelOffsetsSplit(colon, p1, p2, p3, p4, BaseHH);
    PanelOffsetsSplit(colon, p1, p2, p3, p4, BaseH);
    PanelOffsetsSplit(colon, p1, p2, p3, p4, BaseM);
    PanelOffsetsSplit(colon, p1, p2, p3, p4, BaseMM);
    PanelOffsetsOutside(colon, Colon0, Colon1, BaseHH);
    PanelOffsetsOutside(colon, Colon0, Colon1, BaseH);
    PanelOffsetsOutside(colon, Colon0, Colon1, BaseM);
    PanelOffsetsOutside(colon, Colon0, Colon1, BaseMM);
    PanelOffsetsOutside(p1, BaseHH, BaseHH + MaxOffset, BaseH);
    PanelOffsetsOutside(p1, BaseHH, BaseHH + MaxOffset, BaseM);
    PanelOffsetsOutside(p1, BaseHH, BaseHH + MaxOffset, BaseMM);
    PanelOffsetsOutside(p2, BaseH, BaseH + MaxOffset, BaseHH);
    PanelOffsetsOutside(p2, BaseH, BaseH + MaxOffset, BaseM);
    PanelOffsetsOutside(p2, BaseH, BaseH + MaxOffset, BaseMM);
    PanelOffsetsOutside(p3, BaseM, BaseM + MaxOffset, BaseHH);
    PanelOffsetsOutside(p3, BaseM, BaseM + MaxOffset, BaseH);
    PanelOffsetsOutside(p3, BaseM, BaseM + MaxOffset, BaseMM);
    PanelOffsetsOutside(p4, BaseMM, BaseMM + MaxOffset, BaseHH);
    PanelOffsetsOutside(p4, BaseMM, BaseMM + MaxOffset, BaseH);
    PanelOffsetsOutside(p4, BaseMM, BaseMM + MaxOffset, BaseM);
  }

  /** What a panel shows after five runs of writes is what each run shows
      on it, in order. */
  lemma PanelOffsetsSplit(a: seq<PixelWrite>, b: seq<PixelWrite>, d: seq<PixelWrite>,
                          e: seq<PixelWrite>, f: seq<PixelWrite>, panel: int)
    ensures PanelOffsets(a + b + d + e + f, panel) ==
      PanelOffsets(a, panel) + PanelOffsets(b, panel) + PanelOffsets(d, panel)
      + PanelOffsets(e, panel) + PanelOffsets(f, panel)
  {
    PanelOffsetsAppend(a + b + d + e, f, panel);
    PanelOffsetsAppend(a + b + d, e, panel);
    PanelOffsetsAppend(a + b, d, panel);
    PanelOffsetsAppend(a, b, panel);
  }

  /** An enabled overlay shows the tens of the hour on the panel at BaseHH,
      the ones of the hour at BaseH, the tens of the minute at BaseM and the
      ones of the minute at BaseMM, each exactly as drawNumber lights it. */
  lemma OverlayPanels(colonOn: bool, hour: nat, minute: nat, c: Color)
    ensures var w := OverlayWrites(true, colonOn, hour, minute, c);
      && PanelOffsets(w, BaseHH) == LitOffsets(Numbers[Tens(hour)])
      && PanelOffsets(w, BaseH) == LitOffsets(Numbers[Ones(hour)])
      && PanelOffsets(w, BaseM) == LitOffsets(Numbers[Tens(minute)])
      && PanelOffsets(w, BaseMM) == LitOffsets(Numbers[Ones(minute)])
  {
    GlyphOffsetsInPanel(Tens(hour));
    GlyphOffsetsInPanel(Ones(hour));
    GlyphOffsetsInPanel(Tens(minute));
    GlyphOffsetsInPanel(Ones(minute));
    LayoutPanels(ColonWrites(colonOn, c), LitOffsets(Numbers[Tens(hour)]), LitOffsets(Numbers[Ones(hour)]),
      LitOffsets(Numbers[Tens(minute)]), LitOffsets(Numbers[Ones(minute)]), c);
  }

  /** Reads the time back off the writes of one overlay draw. */
  function ReadTime(w: seq<PixelWrite>): (int, int)
  {
    (10 * ReadDigit(PanelOffsets(w, BaseHH)) + ReadDigit(PanelOffsets(w, BaseH)),
     10 * ReadDigit(PanelOffsets(w, BaseM)) + ReadDigit(PanelOffsets(w, BaseMM)))
  }

  /** Panels reading back as the tens and ones of an hour below 24 and of
      a minute below 60 show that time. */
  lemma ReadTimeOfDigits(w: seq<PixelWrite>, hour: nat, minute: nat)
    requires hour < 24 && minute < 60
    requires ReadDigit(PanelOffsets(w, BaseHH)) == Tens(hour) && ReadDigit(PanelOffsets(w, BaseH)) == Ones(hour)
    requires ReadDigit(PanelOffsets(w, BaseM)) == Tens(minute) && ReadDigit(PanelOffsets(w, BaseMM)) == Ones(minute)
    ensures ReadTime(w) == (hour, minute)
  {
    DigitsRecompose(hour);
    DigitsRecompose(minute);
  }

  /** A panel showing the glyph of d reads back as d. */
  lemma PanelReadsBack(w: seq<PixelWrite>, panel: int, d: int)
    requires IsDigit(d)
    requires PanelOffsets(w, panel) == LitOffsets(Numbers[d])
    ensures ReadDigit(PanelOffsets(w, panel)) == d
  {
    GlyphReadsBack(d);
  }

  /** Each panel of an enabled overlay reads back as the digit drawn on it. */
  lemma OverlayReadsDigits(colonOn: bool, hour: nat, minute: nat, c: Color)
    ensures var w := OverlayWrites(true, colonOn, hour, minute, c);
      && ReadDigit(PanelOffsets(w, BaseHH)) == Tens(hour)
      && ReadDigit(PanelOffsets(w, BaseH)) == Ones(hour)
      && ReadDigit(PanelOffsets(w, BaseM)) == Tens(minute)
      && ReadDigit(PanelOffsets(w, BaseMM)) == Ones(minute)
  {
    var w := OverlayWrites(true, colonOn, hour, minute, c);
    OverlayPanels(colonOn, hour, minute, c);
    PanelReadsBack(w, BaseHH, Tens(hour));
    PanelReadsBack(w, BaseH, Ones(hour));
    PanelReadsBack(w, BaseM, Tens(minute));
    PanelReadsBack(w, BaseMM, Ones(minute));
  }

  /** The overlay shows the time it was given: for any hour 0-23 and
      minute 0-59, the time read back off the LEDs is hour:minute. */
  lemma OverlayShowsTime(colonOn: bool, hour: nat, minute: nat, c: Color)
    requires hour < 24 && minute < 60
    ensures ReadTime(OverlayWrites(true, colonOn, hour, minute, c)) == (hour, minute)
  {
    OverlayReadsDigits(colonOn, hour, minute, c);
    ReadTimeOfDigits(OverlayWrites(true, colonOn, hour, minute, c), hour, minute);
  }

  /** At 14:07 the panels show 1 and 4 for the hour and 0 and 7 for the
      minute. */
  lemma FourteenOhSeven(colonOn: bool, c: Color)
    ensures var w := OverlayWrites(true, colonOn, 14, 7, c);
      && PanelOffsets(w, BaseHH) == LitOffsets(Numbers[1])
      && PanelOffsets(w, BaseH) == LitOffsets(Numbers[4])
      && PanelOffsets(w, BaseM) == LitOffsets(Numbers[0])
      && PanelOffsets(w, BaseMM) == LitOffsets(Numbers[7])
      && ReadTime(w) == (14, 7)
  {
    OverlayPanels(colonOn, 14, 7, c);
    OverlayShowsTime(colonOn, 14, 7, c);
  }
}
