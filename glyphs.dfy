/** The digit font of the ping-pong clock: for each digit, the offsets of the
    LEDs to light inside one 20-LED digit panel, padded with a sentinel. */
module Glyphs {

  /** Marks an unused slot; drawNumber lights only entries greater than it. */
  const Sentinel := -1

  /** Every row of the table has this many slots. */
  const RowLength := 10

  /** A digit panel has 20 LEDs, so offsets run from 0 to 19. */
  const MaxOffset := 19

  /** The rows of the glyph table `numbers`, one per digit. */
  const Row0 := [ 0,  1,  4,  6, 13, 15, 18, 19, -1, -1]
  const Row1 := [13, 14, 15, 18, 19, -1, -1, -1, -1, -1]
  const Row2 := [ 0,  4,  5,  6, 13, 14, 15, 19, -1, -1]
  const Row3 := [ 4,  5,  6, 13, 14, 15, 18, 19, -1, -1]
  const Row4 := [ 1,  4,  5, 14, 15, 18, 19, -1, -1, -1]
  const Row5 := [ 1,  4,  5,  6, 13, 14, 15, 18, -1, -1]
  const Row6 := [ 0,  5,  6, 10, 13, 14, 15, 18, -1, -1]
  const Row7 := [ 4,  6,  9, 13, 14, 19, -1, -1, -1, -1]
  const Row8 := [ 0,  1,  4,  5,  6, 13, 14, 15, 18, 19]
  const Row9 := [ 1,  4,  5,  6,  9, 13, 14, 19, -1, -1]

  /** The glyph table `numbers`, row d for digit d. */
  const Numbers: seq<seq<int>> := [Row0, Row1, Row2, Row3, Row4, Row5, Row6, Row7, Row8, Row9]

  predicate IsDigit(d: int) { 0 <= d <= 9 }

  /** The entries of a row from slot k on that drawNumber lights (those
      greater than the sentinel), in row order. */
  function LitFrom(row: seq<int>, k: nat): (r: seq<int>)
    requires k <= |row|
    ensures |r| <= |row| - k
    ensures forall o :: o in r ==> o in row[k..] && o > Sentinel
    decreases |row| - k
  {
    if k == |row| then []
    else (if row[k] > Sentinel then [row[k]] else []) + LitFrom(row, k + 1)
  }

  /** The entries of a whole row that drawNumber lights: at most one per
      slot, and never the sentinel. */
  function LitOffsets(row: seq<int>): (r: seq<int>)
    ensures |r| <= |row|
    ensures forall i :: 0 <= i < |r| ==> r[i] > Sentinel
  {
    var lit := LitFrom(row, 0);
    assert forall i :: 0 <= i < |lit| ==> lit[i] in lit;
    lit
  }

  /** Nothing that drawNumber would light is dropped. */
  lemma {:induction false} LitFromComplete(row: seq<int>, k: nat)
    requires k <= |row|
    ensures forall i :: k <= i < |row| && row[i] > Sentinel ==> row[i] in LitFrom(row, k)
    decreases |row| - k
  {
    if k < |row| {
      LitFromComplete(row, k + 1);
    }
  }

  /** The shape every glyph row should have: each entry is the sentinel or a
      panel offset, sentinels form a trailing run, and the lit entries rise
      strictly (so no LED is listed twice). */
  ghost predicate WellFormedRow(row: seq<int>)
  {
    && (forall i :: 0 <= i < |row| ==> row[i] == Sentinel || 0 <= row[i] <= MaxOffset)
    && (forall i, j :: 0 <= i < j < |row| && row[i] == Sentinel ==> row[j] == Sentinel)
    && (forall i, j :: 0 <= i < j < |row| && row[j] != Sentinel ==> row[i] < row[j])
  }

  /** The same shape, checked one neighbouring pair at a time from slot k
      on. It exists to keep the proofs about the constant table cheap: a
      quantified shape over a literal row costs the solver far more than
      ten unfoldings of this recursion. */
  predicate StepsOk(row: seq<int>, k: nat)
    decreases |row| - k
  {
    if k >= |row| then true
    else
      && (row[k] == Sentinel || 0 <= row[k] <= MaxOffset)
      && (k + 1 < |row| ==>
            && (row[k] == Sentinel ==> row[k + 1] == Sentinel)
            && (row[k + 1] != Sentinel ==> row[k] < row[k + 1]))
      && StepsOk(row, k + 1)
  }

  /** Checking neighbours from slot k on establishes the whole shape of the
      slots from k on. */
  lemma {:induction false} StepsOkShape(row: seq<int>, k: nat)
    requires StepsOk(row, k)
    ensures forall i :: k <= i < |row| ==> row[i] == Sentinel || 0 <= row[i] <= MaxOffset
    ensures forall i, j :: k <= i < j < |row| && row[i] == Sentinel ==> row[j] == Sentinel
    ensures forall i, j :: k <= i < j < |row| && row[j] != Sentinel ==> row[i] < row[j]
    decreases |row| - k
  {
    if k < |row| {
      StepsOkShape(row, k + 1);
    }
  }

  lemma StepsOkWellFormed(row: seq<int>)
    requires StepsOk(row, 0)
    ensures WellFormedRow(row)
  {
    StepsOkShape(row, 0);
  }

  /** Nothing is lit from slot k on when every slot from k on is the
      sentinel. */
  lemma {:induction false} LitFromSentinels(row: seq<int>, k: nat)
    requires k <= |row|
    requires forall i :: k <= i < |row| ==> row[i] == Sentinel
    ensures LitFrom(row, k) == []
    decreases |row| - k
  {
    if k < |row| {
      LitFromSentinels(row, k + 1);
    }
  }

  /** In a well-formed row the lit entries from slot k on are exactly the
      entries from k up to the first sentinel, in row order. */
  lemma {:induction false} LitFromPrefix(row: seq<int>, k: nat)
    requires WellFormedRow(row) && k <= |row|
    ensures LitFrom(row, k) == row[k..k + |LitFrom(row, k)|]
    ensures forall i :: k + |LitFrom(row, k)| <= i < |row| ==> row[i] == Sentinel
    decreases |row| - k
  {
    if k < |row| {
      var rest := LitFrom(row, k + 1);
      if row[k] == Sentinel {
        LitFromSentinels(row, k);
      } else {
        LitFromPrefix(row, k + 1);
        assert LitFrom(row, k) == [row[k]] + rest;
        assert row[k..k + 1 + |rest|] == [row[k]] + row[k + 1..k + 1 + |rest|];
      }
    }
  }

  /** The same for the whole row. */
  lemma LitOffsetsPrefix(row: seq<int>)
    requires WellFormedRow(row)
    ensures LitOffsets(row) == row[..|LitOffsets(row)|]
    ensures forall i :: |LitOffsets(row)| <= i < |row| ==> row[i] == Sentinel
  {
    LitFromPrefix(row, 0);
  }

  /** The digit 8 lights all ten slots of its row. */
  lemma EightLightsAll()
    ensures LitOffsets(Numbers[8]) == Numbers[8]
  {
    GlyphRowShape(8);
    LitOffsetsPrefix(Numbers[8]);
    assert Numbers[8][9] != Sentinel;
  }

  /** Every digit lights at least five LEDs (the digit 1 exactly five). */
  lemma GlyphLightsFive(d: int)
    requires IsDigit(d)
    ensures |LitOffsets(Numbers[d])| >= 5
  {
    GlyphRowShape(d);
    LitOffsetsPrefix(Numbers[d]);
    assert Numbers[d][4] != Sentinel by {
      if d == 0 {} else if d == 1 {} else if d == 2 {} else if d == 3 {} else if d == 4 {}
      else if d == 5 {} else if d == 6 {} else if d == 7 {} else if d == 8 {} else {}
    }
  }

  /** Whether offset o occurs in lit from position k on. LitAt and Lit
      stand for `o in lit` by recursion, which the solver evaluates on a
      literal row cheaply; LitAtIsMember ties the two together. */
  predicate LitAt(lit: seq<int>, o: int, k: nat)
    decreases |lit| - k
  {
    k < |lit| && (lit[k] == o || LitAt(lit, o, k + 1))
  }

  lemma {:induction false} LitAtIsMember(lit: seq<int>, o: int, k: nat)
    requires k <= |lit|
    ensures LitAt(lit, o, k) <==> o in lit[k..]
    decreases |lit| - k
  {
    if k < |lit| {
      LitAtIsMember(lit, o, k + 1);
      assert lit[k..] == [lit[k]] + lit[k + 1..];
    }
  }

  /** Whether offset o is lit on a panel whose lit offsets are lit. */
  predicate Lit(lit: seq<int>, o: int)
  {
    LitAt(lit, o, 0)
  }

  /** Reads a digit back off a panel, from the offsets that are lit: a
      decision tree over a few LEDs that tell the ten glyphs apart. */
  function ReadDigit(lit: seq<int>): int
  {
    if Lit(lit, 10) then 6
    else if Lit(lit, 9) then (if Lit(lit, 1) then 9 else 7)
    else if !Lit(lit, 4) then 1
    else if !Lit(lit, 5) then 0
    else if !Lit(lit, 13) then 4
    else if !Lit(lit, 18) then 2
    else if !Lit(lit, 19) then 5
    else if !Lit(lit, 0) then 3
    else 8
  }

  /* The rows checked one digit at a time: each is well formed and reads
     back as its own digit, sentinels included. Ten small lemmas keep each
     proof about the constant table within the solver's budget, where one
     lemma over all ten rows would not be. */

  lemma Digit0Glyph()
    ensures WellFormedRow(Row0) && ReadDigit(Row0) == 0
  {
    assert ReadDigit(Row0) == 0;
    StepsOkWellFormed(Row0);
  }

  lemma Digit1Glyph()
    ensures WellFormedRow(Row1) && ReadDigit(Row1) == 1
  {
    assert ReadDigit(Row1) == 1;
    StepsOkWellFormed(Row1);
  }

  lemma Digit2Glyph()
    ensures WellFormedRow(Row2) && ReadDigit(Row2) == 2
  {
    assert ReadDigit(Row2) == 2;
    StepsOkWellFormed(Row2);
  }

  lemma Digit3Glyph()
    ensures WellFormedRow(Row3) && ReadDigit(Row3) == 3
  {
    assert ReadDigit(Row3) == 3;
    StepsOkWellFormed(Row3);
  }

  lemma Digit4Glyph()
    ensures WellFormedRow(Row4) && ReadDigit(Row4) == 4
  {
    assert ReadDigit(Row4) == 4;
    StepsOkWellFormed(Row4);
  }

  lemma Digit5Glyph()
    ensures WellFormedRow(Row5) && ReadDigit(Row5) == 5
  {
    assert ReadDigit(Row5) == 5;
    StepsOkWellFormed(Row5);
  }

  lemma Digit6Glyph()
    ensures WellFormedRow(Row6) && ReadDigit(Row6) == 6
  {
    assert ReadDigit(Row6) == 6;
    StepsOkWellFormed(Row6);
  }

  lemma Digit7Glyph()
    ensures WellFormedRow(Row7) && ReadDigit(Row7) == 7
  {
    assert ReadDigit(Row7) == 7;
    StepsOkWellFormed(Row7);
  }

  lemma Digit8Glyph()
    ensures WellFormedRow(Row8) && ReadDigit(Row8) == 8
  {
    assert ReadDigit(Row8) == 8;
    StepsOkWellFormed(Row8);
  }

  lemma Digit9Glyph()
    ensures WellFormedRow(Row9) && ReadDigit(Row9) == 9
  {
    assert ReadDigit(Row9) == 9;
    StepsOkWellFormed(Row9);
  }

  /** Every row of the glyph table has ten slots. A helper Dafny proves
      unaided; callers use it to learn the length without unfolding the
      whole table. */
  lemma GlyphRowLength(d: int)
    requires IsDigit(d)
    ensures |Numbers[d]| == RowLength
  {
  }

  /** Every row of the glyph table has ten slots, is well formed, and reads
      back as its own digit. */
  lemma GlyphRowShape(d: int)
    requires IsDigit(d)
    ensures |Numbers| == 10
    ensures |Numbers[d]| == RowLength && WellFormedRow(Numbers[d]) && ReadDigit(Numbers[d]) == d
  {
    if d == 0 { Digit0Glyph(); }
    else if d == 1 { Digit1Glyph(); }
    else if d == 2 { Digit2Glyph(); }
    else if d == 3 { Digit3Glyph(); }
    else if d == 4 { Digit4Glyph(); }
    else if d == 5 { Digit5Glyph(); }
    else if d == 6 { Digit6Glyph(); }
    else if d == 7 { Digit7Glyph(); }
    else if d == 8 { Digit8Glyph(); }
    else { Digit9Glyph(); }
  }

  /** The lit offsets of a row are its entries above the sentinel. */
  lemma LitOffsetsMembers(row: seq<int>)
    ensures forall o :: o in LitOffsets(row) <==> o in row && o > Sentinel
  {
    LitFromComplete(row, 0);
    assert row[0..] == row;
  }

  /** The decoder probes only real offsets, so dropping the sentinels does
      not change what it reads. */
  lemma ReadDigitIgnoresSentinels(row: seq<int>)
    ensures ReadDigit(LitOffsets(row)) == ReadDigit(row)
  {
    LitOffsetsMembers(row);
    forall o | o >= 0
      ensures Lit(LitOffsets(row), o) == Lit(row, o)
    {
      LitAtIsMember(LitOffsets(row), o, 0);
      LitAtIsMember(row, o, 0);
      assert LitOffsets(row)[0..] == LitOffsets(row);
      assert row[0..] == row;
    }
  }

  /** The font is unambiguous: every digit reads back off the LEDs
      drawNumber lights for it, so no two digits share a glyph. */
  lemma GlyphReadsBack(d: int)
    requires IsDigit(d)
    ensures ReadDigit(LitOffsets(Numbers[d])) == d
  {
    GlyphRowShape(d);
    ReadDigitIgnoresSentinels(Numbers[d]);
  }
}
