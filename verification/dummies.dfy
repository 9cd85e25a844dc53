/**
 * One-hot expansion of a one-row table (app.py:61): integer columns pass
 * through in their order, then each text column is replaced by a single
 * indicator column named `<field>_<value>` holding 1.
 */
module Dummies {
  import opened Form

  /**
   * A one-row table with integer cells: the column labels in table order,
   * and the cell under each label.
   */
  datatype Frame = Frame(columns: seq<string>, cells: map<string, int>)

  ghost predicate Distinct(s: seq<string>)
  {
    forall i, j :: 0 <= i < j < |s| ==> s[i] != s[j]
  }

  /** Labels are unique and the cells are exactly those under the labels. */
  ghost predicate WellFormed(f: Frame)
  {
    && Distinct(f.columns)
    && forall c :: c in f.cells <==> c in f.columns
  }

  /** The label of the indicator column for `value` of column `field`. */
  function Indicator(field: string, value: string): string
  {
    field + "_" + value
  }

  /** The integer columns, in order. */
  function Passthrough(raw: seq<RawColumn>): seq<(string, int)>
  {
    if raw == [] then []
    else
      (match raw[0].cell
         case Num(n) => [(raw[0].name, n)]
         case Text(_) => [])
      + Passthrough(raw[1..])
  }

  /** One indicator column holding 1 per text column, in order. */
  function Indicators(raw: seq<RawColumn>): seq<(string, int)>
  {
    if raw == [] then []
    else
      (match raw[0].cell
         case Num(_) => []
         case Text(v) => [(Indicator(raw[0].name, v), 1)])
      + Indicators(raw[1..])
  }

  function Labels(cols: seq<(string, int)>): seq<string>
  {
    seq(|cols|, i requires 0 <= i < |cols| => cols[i].0)
  }

  function CellsOf(cols: seq<(string, int)>): map<string, int>
  {
    if cols == [] then map[]
    else CellsOf(cols[..|cols| - 1])[cols[|cols| - 1].0 := cols[|cols| - 1].1]
  }

  function FrameOf(cols: seq<(string, int)>): Frame
  {
    Frame(Labels(cols), CellsOf(cols))
  }

  /** The expanded table: integer columns first, then the indicators. */
  function GetDummies(raw: seq<RawColumn>): Frame
  {
    FrameOf(Passthrough(raw) + Indicators(raw))
  }

  /** A list of labelled columns with distinct labels is a well-formed table holding each column's value. */
  lemma {:induction false} FrameOfCells(cols: seq<(string, int)>)
    requires Distinct(Labels(cols))
    ensures WellFormed(FrameOf(cols))
    ensures forall k :: 0 <= k < |cols| ==>
      cols[k].0 in FrameOf(cols).cells && FrameOf(cols).cells[cols[k].0] == cols[k].1
  {
    if cols != [] {
      var init := cols[..|cols| - 1];
      assert Labels(init) == Labels(cols)[..|cols| - 1];
      FrameOfCells(init);
      var last := cols[|cols| - 1];
      assert Labels(cols) == Labels(init) + [last.0];
      forall c
        ensures c in CellsOf(cols) <==> c in Labels(cols)
      {
        assert c in Labels(init) ==> c in Labels(cols);
      }
      forall k | 0 <= k < |cols|
        ensures cols[k].0 in CellsOf(cols) && CellsOf(cols)[cols[k].0] == cols[k].1
      {
        if k < |cols| - 1 {
          assert Labels(cols)[k] != Labels(cols)[|cols| - 1];
          assert cols[k] == init[k];
        }
      }
    }
  }

  /** The expansion of the submitted record (app.py:49-61). */
  function Encode(r: InputRecord): Frame
  {
    GetDummies(InputFrame(r))
  }

  /** The labelled integer columns get_dummies yields for the record's table, in order. */
  function EncodedColumns(r: InputRecord): seq<(string, int)>
  {
    [("usia", r.usia), ("durasi_pelatihan", r.durasiPelatihan), ("nilai_ujian", r.nilaiUjian),
     ("jenis_kelamin", BinaryBit(r.jenisKelamin, Male)), ("status_bekerja", BinaryBit(r.statusBekerja, Experienced)),
     (Indicator("pendidikan", r.pendidikan), 1), (Indicator("jurusan", r.jurusan), 1)]
  }

  /** The labels get_dummies produces for the record's table, in order. */
  function EncodedLabels(r: InputRecord): seq<string>
  {
    Labels(EncodedColumns(r))
  }

  lemma {:induction false} EncodedLabelsDistinct(r: InputRecord)
    ensures Distinct(EncodedLabels(r))
  {
    var s := EncodedLabels(r);
    assert s[5][0] == 'p' && s[6][0] == 'j' && s[6][1] == 'u';
  }

  /** The integer columns of the record's table: the three numbers, then the two bits. */
  lemma {:induction false} PassthroughOfInput(r: InputRecord)
    ensures Passthrough(InputFrame(r)) ==
      [("usia", r.usia), ("durasi_pelatihan", r.durasiPelatihan), ("nilai_ujian", r.nilaiUjian),
       ("jenis_kelamin", BinaryBit(r.jenisKelamin, Male)), ("status_bekerja", BinaryBit(r.statusBekerja, Experienced))]
  {
    var raw := InputFrame(r);
    var g, e := BinaryBit(r.jenisKelamin, Male), BinaryBit(r.statusBekerja, Experienced);
    var t6, t5, t4, t3, t2, t1 := raw[6..], raw[5..], raw[4..], raw[3..], raw[2..], raw[1..];
    assert t6[1..] == [] && t5[1..] == t6 && t4[1..] == t5 && t3[1..] == t4;
    assert t2[1..] == t3 && t1[1..] == t2;
    assert Passthrough(t6) == [("status_bekerja", e)];
    assert Passthrough(t5) == [("jenis_kelamin", g), ("status_bekerja", e)];
    assert Passthrough(t4) == Passthrough(t5);
    assert Passthrough(t3) == Passthrough(t5);
    assert Passthrough(t2) == [("nilai_ujian", r.nilaiUjian)] + Passthrough(t5);
    assert Passthrough(t1) == [("durasi_pelatihan", r.durasiPelatihan)] + Passthrough(t2);
  }

  /** The indicators of the record's table: education first, then training field. */
  lemma {:induction false} IndicatorsOfInput(r: InputRecord)
    ensures Indicators(InputFrame(r)) ==
      [(Indicator("pendidikan", r.pendidikan), 1), (Indicator("jurusan", r.jurusan), 1)]
  {
    var raw := InputFrame(r);
    var t6, t5, t4, t3, t2, t1 := raw[6..], raw[5..], raw[4..], raw[3..], raw[2..], raw[1..];
    assert t6[1..] == [] && t5[1..] == t6 && t4[1..] == t5 && t3[1..] == t4;
    assert t2[1..] == t3 && t1[1..] == t2;
    assert Indicators(t6) == [];
    assert Indicators(t5) == [];
    assert Indicators(t4) == [(Indicator("jurusan", r.jurusan), 1)];
    assert Indicators(t2) == Indicators(t3);
    assert Indicators(t1) == Indicators(t3);
  }

  lemma {:induction false} EncodeIsFrameOf(r: InputRecord)
    ensures Encode(r) == FrameOf(EncodedColumns(r))
  {
    PassthroughOfInput(r);
    IndicatorsOfInput(r);
    assert Passthrough(InputFrame(r)) + Indicators(InputFrame(r)) == EncodedColumns(r);
  }

  /** The value under `c`, or 0 when the table has no column `c`. */
  function ValueOr0(f: Frame, c: string): int
  {
    if c in f.cells then f.cells[c] else 0
  }

  /** The record's expanded table is well-formed and has exactly the seven expected labels, in order. */
  lemma {:induction false} EncodeShape(r: InputRecord)
    ensures WellFormed(Encode(r))
    ensures Encode(r).columns == EncodedLabels(r)
  {
    EncodeIsFrameOf(r);
    EncodedLabelsDistinct(r);
    FrameOfCells(EncodedColumns(r));
  }

  /**
   * The record's expanded table: the three numbers and the two bits pass
   * through under their own labels, each category becomes one indicator
   * holding 1, and any other label is absent.
   */
  lemma {:induction false} EncodeCells(r: InputRecord)
    ensures forall c :: c in Encode(r).cells <==> c in EncodedLabels(r)
    ensures ValueOr0(Encode(r), "usia") == r.usia
    ensures ValueOr0(Encode(r), "durasi_pelatihan") == r.durasiPelatihan
    ensures ValueOr0(Encode(r), "nilai_ujian") == r.nilaiUjian
    ensures ValueOr0(Encode(r), "jenis_kelamin") == BinaryBit(r.jenisKelamin, Male)
    ensures ValueOr0(Encode(r), "status_bekerja") == BinaryBit(r.statusBekerja, Experienced)
    ensures ValueOr0(Encode(r), Indicator("pendidikan", r.pendidikan)) == 1
    ensures ValueOr0(Encode(r), Indicator("jurusan", r.jurusan)) == 1
  {
    EncodeShape(r);
    EncodeIsFrameOf(r);
    var cols := EncodedColumns(r);
    EncodedLabelsDistinct(r);
    FrameOfCells(cols);
    var f := FrameOf(cols);
    assert f.cells[cols[0].0] == cols[0].1;
    assert f.cells[cols[1].0] == cols[1].1;
    assert f.cells[cols[2].0] == cols[2].1;
    assert f.cells[cols[3].0] == cols[3].1;
    assert f.cells[cols[4].0] == cols[4].1;
    assert f.cells[cols[5].0] == cols[5].1;
    assert f.cells[cols[6].0] == cols[6].1;
  }
}
