/**
 * What the aligned vector of a submitted record holds, position by position,
 * for any manifest and any category labels (app.py:49-69).
 */
module AlignmentProperties {
  import opened Form
  import opened Dummies
  import opened Alignment

  /** The two fields that get_dummies expands. */
  predicate IsCategoryField(field: string)
  {
    field == "pendidikan" || field == "jurusan"
  }

  /** The record's choice for a category field. */
  function Chosen(r: InputRecord, field: string): string
    requires IsCategoryField(field)
  {
    if field == "pendidikan" then r.pendidikan else r.jurusan
  }

  /** `c` is an indicator label of `field`, i.e. it reads `<field>_<something>`. */
  predicate InBlock(c: string, field: string)
  {
    |field| + 1 <= |c| && c[..|field| + 1] == field + "_"
  }

  /** The only expanded label in a category's block is the indicator of the chosen value. */
  lemma {:induction false} EncodedInBlock(r: InputRecord, c: string, field: string)
    requires IsCategoryField(field)
    requires InBlock(c, field)
    ensures c in EncodedLabels(r) <==> c == Indicator(field, Chosen(r, field))
  {
    var s := EncodedLabels(r);
    assert c[0] == (field + "_")[0] && c[1] == (field + "_")[1];
    assert s[5][0] == 'p' && s[6][0] == 'j' && s[6][1] == 'u';
    if c == Indicator(field, Chosen(r, field)) {
      assert c == s[if field == "pendidikan" then 5 else 6];
    }
  }

  /** Age, training duration and exam score reach every position that names them unchanged. */
  lemma {:induction false} AlignNumericPassThrough(r: InputRecord, manifest: seq<string>)
    ensures forall i :: 0 <= i < |manifest| && manifest[i] == "usia" ==> Align(r, manifest)[i] == r.usia
    ensures forall i :: 0 <= i < |manifest| && manifest[i] == "durasi_pelatihan" ==>
      Align(r, manifest)[i] == r.durasiPelatihan
    ensures forall i :: 0 <= i < |manifest| && manifest[i] == "nilai_ujian" ==>
      Align(r, manifest)[i] == r.nilaiUjian
  {
    EncodeCells(r);
  }

  /**
   * The gender column is 1 exactly when the gender is "Laki-laki" and the
   * experience column is 1 exactly when the answer is "Ya"; both are 0 otherwise.
   */
  lemma {:induction false} AlignBinaryColumns(r: InputRecord, manifest: seq<string>)
    ensures forall i :: 0 <= i < |manifest| && manifest[i] == "jenis_kelamin" ==>
      && 0 <= Align(r, manifest)[i] <= 1
      && (Align(r, manifest)[i] == 1 <==> r.jenisKelamin == "Laki-laki")
    ensures forall i :: 0 <= i < |manifest| && manifest[i] == "status_bekerja" ==>
      && 0 <= Align(r, manifest)[i] <= 1
      && (Align(r, manifest)[i] == 1 <==> r.statusBekerja == "Ya")
  {
    EncodeCells(r);
  }

  /**
   * In a category's block, a position is 1 exactly when it names the chosen
   * value's indicator, and 0 otherwise.
   */
  lemma {:induction false} AlignIndicators(r: InputRecord, manifest: seq<string>, field: string)
    requires IsCategoryField(field)
    ensures forall i :: 0 <= i < |manifest| && InBlock(manifest[i], field) ==>
      && 0 <= Align(r, manifest)[i] <= 1
      && (Align(r, manifest)[i] == 1 <==> manifest[i] == Indicator(field, Chosen(r, field)))
  {
    EncodeCells(r);
    forall i | 0 <= i < |manifest| && InBlock(manifest[i], field)
      ensures 0 <= Align(r, manifest)[i] <= 1
      ensures Align(r, manifest)[i] == 1 <==> manifest[i] == Indicator(field, Chosen(r, field))
    {
      EncodedInBlock(r, manifest[i], field);
    }
  }

  /** The indicator `<field>_<v>` is 1 exactly when `v` is the chosen value. */
  lemma {:induction false} AlignIndicatorOf(r: InputRecord, manifest: seq<string>, i: nat, field: string, v: string)
    requires IsCategoryField(field)
    requires i < |manifest| && manifest[i] == Indicator(field, v)
    ensures Align(r, manifest)[i] == 1 <==> v == Chosen(r, field)
    ensures Align(r, manifest)[i] == 0 <==> v != Chosen(r, field)
  {
    assert manifest[i][..|field| + 1] == field + "_";
    AlignIndicators(r, manifest, field);
    assert Indicator(field, v) == Indicator(field, Chosen(r, field)) ==> v == Chosen(r, field) by {
      if Indicator(field, v) == Indicator(field, Chosen(r, field)) {
        assert v == Indicator(field, v)[|field| + 1..];
      }
    }
  }

  /** Every position holding 1 in a category's block names the same column. */
  lemma {:induction false} AlignOneHot(r: InputRecord, manifest: seq<string>, field: string)
    requires IsCategoryField(field)
    ensures forall i, j ::
      && 0 <= i < |manifest| && 0 <= j < |manifest|
      && InBlock(manifest[i], field) && InBlock(manifest[j], field)
      && Align(r, manifest)[i] == 1 && Align(r, manifest)[j] == 1
      ==> manifest[i] == manifest[j]
  {
    AlignIndicators(r, manifest, field);
  }

  /**
   * A chosen category the manifest does not know leaves that category's
   * block all zeros; alignment itself still succeeds.
   */
  lemma {:induction false} AlignUnknownCategory(r: InputRecord, manifest: seq<string>, field: string)
    requires IsCategoryField(field)
    requires Indicator(field, Chosen(r, field)) !in manifest
    ensures forall i :: 0 <= i < |manifest| && InBlock(manifest[i], field) ==> Align(r, manifest)[i] == 0
  {
    AlignIndicators(r, manifest, field);
  }

  /** A manifest column that the expansion did not produce is 0. */
  lemma {:induction false} AlignUnproducedIsZero(r: InputRecord, manifest: seq<string>)
    ensures forall i :: 0 <= i < |manifest| && manifest[i] !in EncodedLabels(r) ==> Align(r, manifest)[i] == 0
  {
    EncodeCells(r);
  }

  /** For inputs the widgets can deliver, every entry lies between 0 and 100. */
  lemma {:induction false} AlignWidgetBounds(r: InputRecord, manifest: seq<string>)
    requires FromWidgets(r)
    ensures forall i :: 0 <= i < |manifest| ==> 0 <= Align(r, manifest)[i] <= 100
  {
    EncodeCells(r);
    forall i | 0 <= i < |manifest|
      ensures 0 <= Align(r, manifest)[i] <= 100
    {
      var c := manifest[i];
      if c in EncodedLabels(r) {
        var k :| 0 <= k < 7 && EncodedLabels(r)[k] == c;
      }
    }
  }

  /** A manifest as get_dummies would have produced it on the training table with every category present. */
  const ExampleManifest: seq<string> := [
    "usia", "durasi_pelatihan", "nilai_ujian", "jenis_kelamin", "status_bekerja",
    "pendidikan_Diploma", "pendidikan_SMA/SMK", "pendidikan_Sarjana",
    "jurusan_Bisnis", "jurusan_Desain", "jurusan_IT", "jurusan_Kesehatan", "jurusan_Teknik"]

  /** The example record used below. */
  const ExampleRecord: InputRecord := InputRecord(20, 6, 85, "Laki-laki", "Diploma", "IT", "Tidak")

  lemma {:induction false} ExampleNumberColumns(r: InputRecord, m: seq<string>)
    requires r == ExampleRecord && m == ExampleManifest
    ensures Align(r, m)[..5] == [20, 6, 85, 1, 0]
  {
    var v := Align(r, m);
    assert v[0] == 20 && v[1] == 6 && v[2] == 85 by { AlignNumericPassThrough(r, m); }
    assert v[3] == 1 && v[4] == 0 by { AlignBinaryColumns(r, m); }
  }

  lemma {:induction false} ExampleEducationBlock(r: InputRecord, m: seq<string>)
    requires r == ExampleRecord && m == ExampleManifest
    ensures Align(r, m)[5..8] == [1, 0, 0]
  {
    var v := Align(r, m);
    assert v[5] == 1 by { AlignIndicatorOf(r, m, 5, "pendidikan", "Diploma"); }
    assert v[6] == 0 by { AlignIndicatorOf(r, m, 6, "pendidikan", "SMA/SMK"); }
    assert v[7] == 0 by { AlignIndicatorOf(r, m, 7, "pendidikan", "Sarjana"); }
  }

  lemma {:induction false} ExampleFieldBlock(r: InputRecord, m: seq<string>)
    requires r == ExampleRecord && m == ExampleManifest
    ensures Align(r, m)[8..] == [0, 0, 1, 0, 0]
  {
    var v := Align(r, m);
    assert v[8] == 0 by { AlignIndicatorOf(r, m, 8, "jurusan", "Bisnis"); }
    assert v[9] == 0 by { AlignIndicatorOf(r, m, 9, "jurusan", "Desain"); }
    assert v[10] == 1 by { AlignIndicatorOf(r, m, 10, "jurusan", "IT"); }
    assert v[11] == 0 by { AlignIndicatorOf(r, m, 11, "jurusan", "Kesehatan"); }
    assert v[12] == 0 by { AlignIndicatorOf(r, m, 12, "jurusan", "Teknik"); }
  }

  /**
   * A 20-year-old man, 6 months of training, score 85, Diploma, IT, no work
   * experience: the numbers pass through, gender is 1, experience is 0, and
   * only the Diploma and IT indicators are set.
   */
  lemma {:induction false} ExampleSubmission(r: InputRecord, m: seq<string>)
    requires r == ExampleRecord && m == ExampleManifest
    ensures Align(r, m) == [20, 6, 85, 1, 0, 1, 0, 0, 0, 0, 1, 0, 0]
  {
    var v := Align(r, m);
    ExampleNumberColumns(r, m);
    ExampleEducationBlock(r, m);
    ExampleFieldBlock(r, m);
    assert v == v[..5] + v[5..8] + v[8..];
  }
}
