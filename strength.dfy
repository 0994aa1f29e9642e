/**
 * The strength curve: the fixed table of offset bands (one per number of
 * downsampling iterations) and the 15-entry table of {iteration, offset}
 * pairs it is spread over, one entry per step of the strength slider.
 *
 * The source computes in `float`; every band value is a small exact
 * rational, so the model computes in `real`.
 */
module StrengthCurve {

  /** OffsetStruct: the usable offset range of one iteration count, and the
      margin the blur pass may sample beyond a visible edge. */
  datatype OffsetBand = OffsetBand(minOffset: real, maxOffset: real, expandSize: int)

  /** BlurNGValuesStruct: one strength slot. */
  datatype StrengthEntry = StrengthEntry(iteration: int, offset: real)

  /** The range of the strength slider. */
  const NumOfBlurSteps: int := 15

  /** The four bands, for downsampling to 1/2, 1/4, 1/8 and 1/16. */
  const DefaultBands: seq<OffsetBand> := [
    OffsetBand(1.0, 2.0, 10),
    OffsetBand(2.0, 3.0, 20),
    OffsetBand(2.0, 5.0, 50),
    OffsetBand(3.0, 8.0, 150)
  ]

  function Span(b: OffsetBand): real { b.maxOffset - b.minOffset }

  /** The sum of all band spans (the first loop of the table construction). */
  function SpanSum(bands: seq<OffsetBand>): real
    decreases |bands|
  {
    if bands == [] then 0.0 else SpanSum(bands[..|bands| - 1]) + Span(bands[|bands| - 1])
  }

  /** std::ceil */
  function Ceil(x: real): (r: int)
    ensures (r - 1) as real < x <= r as real
  {
    -((-x).Floor)
  }

  /** Conversion of a float to int: truncation toward zero. */
  function Trunc(x: real): (r: int)
    ensures x >= 0.0 ==> r as real <= x < r as real + 1.0
    ensures x < 0.0 ==> r as real - 1.0 < x <= r as real
  {
    if x >= 0.0 then x.Floor else -((-x).Floor)
  }

  /** The number of slots a band asks for: ceil(span / sum * steps). */
  function Wanted(b: OffsetBand, sum: real, steps: int): int
    requires sum != 0.0
  {
    Ceil(Span(b) / sum * steps as real)
  }

  /** The entries of one band: `count` offsets spaced evenly above minOffset,
      entry j (from 1) at minOffset + span / count * j. */
  function BandEntries(iteration: int, b: OffsetBand, count: int): (r: seq<StrengthEntry>)
    ensures |r| == if count > 0 then count else 0
  {
    if count <= 0 then []
    else seq(count, j requires 0 <= j < count =>
               StrengthEntry(iteration, b.minOffset + (Span(b) / count as real) * (j + 1) as real))
  }

  /** The slots band `i` actually gets when `remaining` slots are left before
      it: what it asks for, less the overflow once the budget goes negative. */
  function Granted(wanted: int, remaining: int): int {
    if remaining - wanted < 0 then wanted + (remaining - wanted) else wanted
  }

  /** The entries of bands `from..`, with `remaining` slots still unassigned. */
  function Allocate(bands: seq<OffsetBand>, from: nat, sum: real, steps: int, remaining: int): seq<StrengthEntry>
    requires from <= |bands| && sum != 0.0
    decreases |bands| - from
  {
    if from == |bands| then []
    else
      var wanted := Wanted(bands[from], sum, steps);
      BandEntries(from + 1, bands[from], Granted(wanted, remaining))
        + Allocate(bands, from + 1, sum, steps, remaining - wanted)
  }

  /** One band's turn: appending its entries to what came before leaves the
      later bands' entries, with what is left, still to come. */
  lemma AllocateAppend(before: seq<StrengthEntry>, entries: seq<StrengthEntry>, bands: seq<OffsetBand>, i: nat,
                       sum: real, steps: int, remaining: int)
    requires i < |bands| && sum != 0.0
    requires entries == BandEntries(i + 1, bands[i], Granted(Wanted(bands[i], sum, steps), remaining))
    ensures (before + entries) + Allocate(bands, i + 1, sum, steps, remaining - Wanted(bands[i], sum, steps))
         == before + Allocate(bands, i, sum, steps, remaining)
  {
    var tail := Allocate(bands, i + 1, sum, steps, remaining - Wanted(bands[i], sum, steps));
    assert Allocate(bands, i, sum, steps, remaining) == entries + tail;
    assert (before + entries) + tail == before + (entries + tail);
  }

  /** The whole strength table of initBlurNGStrengthValues. */
  function StrengthTable(bands: seq<OffsetBand>, steps: int): seq<StrengthEntry>
    requires SpanSum(bands) != 0.0
  {
    Allocate(bands, 0, SpanSum(bands), steps, steps)
  }

  lemma DefaultSpanSum()
    ensures SpanSum(DefaultBands) == 10.0
  {
    var b := DefaultBands;
    assert b[..4] == b;
    assert b[..4][..3] == b[..3] && b[..3][..2] == b[..2] && b[..2][..1] == b[..1] && b[..1][..0] == [];
    assert SpanSum(b[..1]) == 1.0;
    assert SpanSum(b[..2]) == 2.0;
    assert SpanSum(b[..3]) == 5.0;
  }

  /** The table the default bands give, entry by entry: two slots for one
      iteration, two for two, five for three and six for four. */
  function DefaultTable(): (r: seq<StrengthEntry>)
    ensures r == DefaultValues && |r| == NumOfBlurSteps
  {
    DefaultTableBands();
    BandValues();
    StrengthTable(DefaultBands, NumOfBlurSteps)
  }

  /** The four bands get 2, 2, 5 and 6 slots: they ask for ceil(1.5), ceil(1.5),
      ceil(4.5) and ceil(7.5) = 2, 2, 5, 8, and the last one loses the overflow
      of 2. The table therefore has exactly 15 entries. */
  lemma {:induction false} DefaultTableBands()
    ensures SpanSum(DefaultBands) == 10.0
    ensures StrengthTable(DefaultBands, NumOfBlurSteps)
            == BandEntries(1, DefaultBands[0], 2) + BandEntries(2, DefaultBands[1], 2)
               + BandEntries(3, DefaultBands[2], 5) + BandEntries(4, DefaultBands[3], 6)
  {
    DefaultSpanSum();
    var b := DefaultBands;
    assert Wanted(b[0], 10.0, 15) == 2;
    assert Wanted(b[1], 10.0, 15) == 2;
    assert Wanted(b[2], 10.0, 15) == 5;
    assert Wanted(b[3], 10.0, 15) == 8;
    assert Allocate(b, 4, 10.0, 15, -2) == [];
    assert Allocate(b, 3, 10.0, 15, 6) == BandEntries(4, b[3], 6);
    assert Allocate(b, 2, 10.0, 15, 11) == BandEntries(3, b[2], 5) + BandEntries(4, b[3], 6);
    assert Allocate(b, 1, 10.0, 15, 13)
        == BandEntries(2, b[1], 2) + (BandEntries(3, b[2], 5) + BandEntries(4, b[3], 6));
  }

  /** Within a band the offsets strictly increase from just above minOffset,
      the last entry is exactly maxOffset, and every entry carries the band's
      iteration number. */
  lemma BandEntriesShape(iteration: int, b: OffsetBand, count: int)
    requires Span(b) > 0.0 && count > 0
    ensures forall j :: 0 <= j < count ==> BandEntries(iteration, b, count)[j].iteration == iteration
    ensures forall j :: 0 <= j < count ==> BandEntries(iteration, b, count)[j].offset > b.minOffset
    ensures forall j, k :: 0 <= j < k < count ==>
              BandEntries(iteration, b, count)[j].offset < BandEntries(iteration, b, count)[k].offset
    ensures BandEntries(iteration, b, count)[count - 1].offset == b.maxOffset
  {
    var e := BandEntries(iteration, b, count);
    var step := Span(b) / count as real;
    assert step > 0.0;
    forall j | 0 <= j < count ensures e[j].offset > b.minOffset {
      assert e[j].offset == b.minOffset + step * (j + 1) as real;
      PositiveProduct(step, (j + 1) as real);
    }
    forall j, k | 0 <= j < k < count ensures e[j].offset < e[k].offset {
      assert e[k].offset - e[j].offset == step * (k - j) as real;
      PositiveProduct(step, (k - j) as real);
    }
    assert step * count as real == Span(b);
  }

  lemma PositiveProduct(a: real, b: real)
    requires a > 0.0 && b > 0.0
    ensures a * b > 0.0
  {
  }

  /** Every entry of bands `from..` carries an iteration between from + 1 and
      the number of bands, and the iterations never decrease along the table. */
  lemma {:induction false} AllocateIterations(bands: seq<OffsetBand>, from: nat, sum: real, steps: int, remaining: int)
    requires from <= |bands| && sum != 0.0
    ensures forall k :: 0 <= k < |Allocate(bands, from, sum, steps, remaining)| ==>
              from < Allocate(bands, from, sum, steps, remaining)[k].iteration <= |bands|
    ensures forall j, k :: 0 <= j < k < |Allocate(bands, from, sum, steps, remaining)| ==>
              Allocate(bands, from, sum, steps, remaining)[j].iteration
                <= Allocate(bands, from, sum, steps, remaining)[k].iteration
    decreases |bands| - from
  {
    if from < |bands| {
      var wanted := Wanted(bands[from], sum, steps);
      var head := BandEntries(from + 1, bands[from], Granted(wanted, remaining));
      var tail := Allocate(bands, from + 1, sum, steps, remaining - wanted);
      AllocateIterations(bands, from + 1, sum, steps, remaining - wanted);
      assert Allocate(bands, from, sum, steps, remaining) == head + tail;
      assert forall k :: 0 <= k < |head| ==> head[k].iteration == from + 1;
    }
  }

  /** Iteration counts never decrease as the strength grows, and stay within
      the band table, so every entry's band (iteration - 1) exists. */
  lemma DefaultIterations()
    ensures forall k :: 0 <= k < |DefaultTable()| ==> 1 <= DefaultTable()[k].iteration <= |DefaultBands|
    ensures forall j, k :: 0 <= j < k < |DefaultTable()| ==> DefaultTable()[j].iteration <= DefaultTable()[k].iteration
  {
    DefaultSpanSum();
    AllocateIterations(DefaultBands, 0, SpanSum(DefaultBands), NumOfBlurSteps, NumOfBlurSteps);
  }

  /** The table's entries, written out band by band. */
  const Band1Values: seq<StrengthEntry> := [StrengthEntry(1, 1.5), StrengthEntry(1, 2.0)]
  const Band2Values: seq<StrengthEntry> := [StrengthEntry(2, 2.5), StrengthEntry(2, 3.0)]
  const Band3Values: seq<StrengthEntry> :=
    [StrengthEntry(3, 2.6), StrengthEntry(3, 3.2), StrengthEntry(3, 3.8), StrengthEntry(3, 4.4), StrengthEntry(3, 5.0)]
  const Band4Values: seq<StrengthEntry> :=
    [StrengthEntry(4, 23.0 / 6.0), StrengthEntry(4, 28.0 / 6.0), StrengthEntry(4, 5.5),
     StrengthEntry(4, 38.0 / 6.0), StrengthEntry(4, 43.0 / 6.0), StrengthEntry(4, 8.0)]

  /** The whole default table, band after band. */
  const DefaultValues: seq<StrengthEntry> := Band1Values + Band2Values + Band3Values + Band4Values

  lemma BandEntryAt(iteration: int, b: OffsetBand, count: int, j: int)
    requires 0 <= j < count
    ensures BandEntries(iteration, b, count)[j]
         == StrengthEntry(iteration, b.minOffset + (Span(b) / count as real) * (j + 1) as real)
  {
  }

  lemma BandValues()
    ensures BandEntries(1, DefaultBands[0], 2) == Band1Values
    ensures BandEntries(2, DefaultBands[1], 2) == Band2Values
    ensures BandEntries(3, DefaultBands[2], 5) == Band3Values
    ensures BandEntries(4, DefaultBands[3], 6) == Band4Values
  {
    var b := DefaultBands;
    forall j | 0 <= j < 2 ensures BandEntries(1, b[0], 2)[j] == Band1Values[j] {
      BandEntryAt(1, b[0], 2, j);
    }
    forall j | 0 <= j < 2 ensures BandEntries(2, b[1], 2)[j] == Band2Values[j] {
      BandEntryAt(2, b[1], 2, j);
    }
    forall j | 0 <= j < 5 ensures BandEntries(3, b[2], 5)[j] == Band3Values[j] {
      BandEntryAt(3, b[2], 5, j);
    }
    forall j | 0 <= j < 6 ensures BandEntries(4, b[3], 6)[j] == Band4Values[j] {
      BandEntryAt(4, b[3], 6, j);
    }
  }

  /** The iteration count each slider step selects. */
  const SelectedIterations: seq<int> := [1, 1, 2, 2, 3, 3, 3, 3, 3, 4, 4, 4, 4, 4, 4]

  /** The offset each slider step stores: the table's offset truncated to int. */
  const SelectedOffsets: seq<int> := [1, 2, 2, 3, 2, 3, 3, 4, 5, 3, 4, 5, 6, 7, 8]

  lemma {:induction false} ValuesSelect(v: seq<StrengthEntry>)
    requires v == DefaultValues
    ensures |v| == 15
    ensures forall k :: 0 <= k < 15 ==> 1 <= v[k].iteration <= |DefaultBands|
    ensures forall k :: 0 <= k < 15 ==> v[k].iteration == SelectedIterations[k]
    ensures forall k :: 0 <= k < 15 ==> Trunc(v[k].offset) == SelectedOffsets[k]
  {
    forall k | 0 <= k < 15
      ensures 1 <= v[k].iteration <= |DefaultBands|
      ensures v[k].iteration == SelectedIterations[k] && Trunc(v[k].offset) == SelectedOffsets[k]
    {
      if k < 2 {
        assert v[k] == Band1Values[k];
      } else if k < 4 {
        assert v[k] == Band2Values[k - 2];
      } else if k < 9 {
        assert v[k] == Band3Values[k - 4];
      } else {
        assert v[k] == Band4Values[k - 9];
        assert Trunc(23.0 / 6.0) == 3 && Trunc(28.0 / 6.0) == 4;
        assert Trunc(38.0 / 6.0) == 6 && Trunc(43.0 / 6.0) == 7;
      }
    }
  }

  /** The table the slider indexes: iteration count and stored (truncated)
      offset for strengths 1..15. */
  lemma DefaultSelections()
    ensures |DefaultTable()| == 15
    ensures forall k :: 0 <= k < 15 ==> DefaultTable()[k].iteration == SelectedIterations[k]
    ensures forall k :: 0 <= k < 15 ==> Trunc(DefaultTable()[k].offset) == SelectedOffsets[k]
  {
    ValuesSelect(DefaultTable());
  }

  /** Offsets are monotone inside a band but not across bands: the last entry
      of the second band (3.0) is larger than the first of the third (2.6). */
  lemma OffsetsDropAtBandStart()
    ensures |DefaultTable()| == 15
    ensures DefaultTable()[3].offset == 3.0 && DefaultTable()[4].offset == 2.6
  {
  }
}
