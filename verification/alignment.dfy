/**
 * Reconciling the expanded table with the column manifest the model was
 * trained on (app.py:63-69): every manifest column the table lacks is added
 * holding 0, then the table is projected onto the manifest, which drops the
 * other columns and puts the rest in manifest order.
 */
module Alignment {
  import opened Form
  import opened Dummies

  /** Adds `col` holding 0 at the end of the table unless it is already there. */
  function AddZeroColumn(f: Frame, col: string): Frame
  {
    if col in f.cells then f else Frame(f.columns + [col], f.cells[col := 0])
  }

  /** The table after the zero-fill loop has visited every manifest entry in order. */
  function ZeroFilled(f: Frame, manifest: seq<string>): Frame
  {
    if manifest == [] then f
    else AddZeroColumn(ZeroFilled(f, manifest[..|manifest| - 1]), manifest[|manifest| - 1])
  }

  /**
   * The zero-fill loop only adds: the table stays well-formed, keeps its
   * columns as a prefix and every value it had, gains exactly the manifest
   * columns it lacked, and each of those holds 0.
   */
  lemma {:induction false} ZeroFilledSpec(f: Frame, manifest: seq<string>)
    requires WellFormed(f)
    ensures WellFormed(ZeroFilled(f, manifest))
    ensures forall c :: c in ZeroFilled(f, manifest).cells <==> c in f.cells || c in manifest
    ensures forall c :: c in f.cells ==> ZeroFilled(f, manifest).cells[c] == f.cells[c]
    ensures forall c :: c in ZeroFilled(f, manifest).cells && c !in f.cells ==>
      ZeroFilled(f, manifest).cells[c] == 0
    ensures |f.columns| <= |ZeroFilled(f, manifest).columns|
    ensures ZeroFilled(f, manifest).columns[..|f.columns|] == f.columns
  {
    if manifest != [] {
      var init := manifest[..|manifest| - 1];
      var col := manifest[|manifest| - 1];
      ZeroFilledSpec(f, init);
      var g := ZeroFilled(f, init);
      assert manifest == init + [col];
      if col !in g.cells {
        var h := AddZeroColumn(g, col);
        assert h.columns[..|g.columns|] == g.columns;
        assert h.columns[..|f.columns|] == g.columns[..|f.columns|];
        forall i, j | 0 <= i < j < |h.columns|
          ensures h.columns[i] != h.columns[j]
        {
          if j == |g.columns| {
            assert h.columns[i] == g.columns[i];
          }
        }
      }
    }
  }

  /**
   * The zero-fill loop of the source: for each manifest column, in order,
   * add it holding 0 if the table does not have it yet.
   */
  method ZeroFill(encoded: Frame, manifest: seq<string>) returns (filled: Frame)
    ensures filled == ZeroFilled(encoded, manifest)
  {
    filled := encoded;
    for i := 0 to |manifest|
      invariant filled == ZeroFilled(encoded, manifest[..i])
    {
      var col := manifest[i];
      if col !in filled.cells {
        filled := Frame(filled.columns + [col], filled.cells[col := 0]);
      }
      assert manifest[..i + 1][..i] == manifest[..i];
    }
    assert manifest[..|manifest|] == manifest;
  }

  /** A projected row: column labels and their values, position by position. */
  datatype Row = Row(columns: seq<string>, values: seq<int>)

  /** Projecting fails, naming a missing column, when the table lacks one. */
  datatype Selection = Selected(row: Row) | KeyError(missing: string)

  /**
   * `table[manifest]`: succeeds exactly when every manifest column is in the
   * table, giving the manifest as labels and, at each position, the value
   * under that label; otherwise reports a manifest column the table lacks.
   */
  function Select(f: Frame, manifest: seq<string>): (s: Selection)
    ensures s.Selected? ==>
      && s.row.columns == manifest
      && |s.row.values| == |manifest|
      && forall i :: 0 <= i < |manifest| ==>
           manifest[i] in f.cells && s.row.values[i] == f.cells[manifest[i]]
    ensures s.KeyError? ==> s.missing in manifest && s.missing !in f.cells
  {
    if manifest == [] then Selected(Row([], []))
    else if manifest[0] !in f.cells then KeyError(manifest[0])
    else
      match Select(f, manifest[1..])
      case KeyError(c) => KeyError(c)
      case Selected(row) => Selected(Row([manifest[0]] + row.columns, [f.cells[manifest[0]]] + row.values))
  }

  /**
   * The reference alignment: position i holds the table's value for
   * manifest[i], or 0 when the table has no such column.
   */
  function Aligned(f: Frame, manifest: seq<string>): (v: seq<int>)
    ensures |v| == |manifest|
  {
    seq(|manifest|, i requires 0 <= i < |manifest| => ValueOr0(f, manifest[i]))
  }

  /**
   * Zero-filling and then projecting never fails, whatever the manifest, and
   * yields the manifest as labels over the reference alignment.
   */
  lemma {:induction false} SelectAfterFill(f: Frame, manifest: seq<string>)
    requires WellFormed(f)
    ensures Select(ZeroFilled(f, manifest), manifest) == Selected(Row(manifest, Aligned(f, manifest)))
  {
    ZeroFilledSpec(f, manifest);
    var g := ZeroFilled(f, manifest);
    var s := Select(g, manifest);
    assert s.Selected?;
    forall i | 0 <= i < |manifest|
      ensures s.row.values[i] == Aligned(f, manifest)[i]
    {
    }
  }

  /**
   * Only the manifest columns matter: two tables that agree on every
   * manifest column align alike, whatever else they hold and in whatever
   * order their columns stand.
   */
  lemma AlignedReadsOnlyManifest(f: Frame, g: Frame, manifest: seq<string>)
    requires forall c :: c in manifest ==> ValueOr0(f, c) == ValueOr0(g, c)
    ensures Aligned(f, manifest) == Aligned(g, manifest)
  {
  }

  /** The aligned vector of a submitted record against a manifest. */
  function Align(r: InputRecord, manifest: seq<string>): seq<int>
  {
    Aligned(Encode(r), manifest)
  }

  /**
   * The preprocessing block: expand the record, zero-fill against the
   * manifest, project. It never fails and yields the manifest-labelled
   * reference alignment.
   */
  method Preprocess(r: InputRecord, manifest: seq<string>) returns (row: Row)
    ensures row.columns == manifest
    ensures row.values == Align(r, manifest)
  {
    var encoded := GetDummies(InputFrame(r));
    EncodeShape(r);
    var filled := ZeroFill(encoded, manifest);
    SelectAfterFill(encoded, manifest);
    var selection := Select(filled, manifest);
    row := selection.row;
  }

  /**
   * Along the source's own path (zero-fill, then project), a column the
   * expansion produced but the manifest does not name has no effect on the
   * projected row.
   */
  lemma {:induction false} ProjectionIgnoresExtraColumn(f: Frame, manifest: seq<string>, col: string, value: int)
    requires WellFormed(f)
    requires col !in f.cells && col !in manifest
    ensures Select(ZeroFilled(Frame(f.columns + [col], f.cells[col := value]), manifest), manifest)
         == Select(ZeroFilled(f, manifest), manifest)
  {
    var g := Frame(f.columns + [col], f.cells[col := value]);
    forall i, j | 0 <= i < j < |g.columns|
      ensures g.columns[i] != g.columns[j]
    {
      if j == |f.columns| {
        assert g.columns[i] == f.columns[i];
      }
    }
    SelectAfterFill(f, manifest);
    SelectAfterFill(g, manifest);
    AlignedReadsOnlyManifest(g, f, manifest);
  }
}
