/**
 * The submitted form (app.py:34-42) and the one-row table built from it
 * (app.py:49-57), with the two binary answers already turned into 0/1.
 */
module Form {

  /** One submission. Field names follow the table columns the source builds. */
  datatype InputRecord = InputRecord(
    usia: int,              // age in years
    durasiPelatihan: int,   // training duration in months
    nilaiUjian: int,        // final exam score
    jenisKelamin: string,   // gender label as shown by the select box
    pendidikan: string,     // last education
    jurusan: string,        // training field
    statusBekerja: string)  // "has work experience?" answer

  /** The options the widgets offer. Nothing downstream checks them. */
  const GenderChoices: seq<string> := ["Laki-laki", "Perempuan"]
  const EducationChoices: seq<string> := ["SMA/SMK", "Diploma", "Sarjana"]
  const FieldChoices: seq<string> := ["Teknik", "IT", "Bisnis", "Desain", "Kesehatan"]
  const ExperienceChoices: seq<string> := ["Ya", "Tidak"]

  /** What the widgets can deliver: the numeric bounds and the offered options. */
  predicate FromWidgets(r: InputRecord)
  {
    && 17 <= r.usia <= 60
    && 1 <= r.durasiPelatihan <= 36
    && 0 <= r.nilaiUjian <= 100
    && r.jenisKelamin in GenderChoices
    && r.pendidikan in EducationChoices
    && r.jurusan in FieldChoices
    && r.statusBekerja in ExperienceChoices
  }

  /** The answers encoded as 1: male gender and "has work experience". */
  const Male: string := "Laki-laki"
  const Experienced: string := "Ya"

  /** A two-way answer is encoded as 1 when it is `positive` and 0 for anything else. */
  function BinaryBit(answer: string, positive: string): (b: int)
    ensures 0 <= b <= 1
    ensures b == 1 <==> answer == positive
  {
    if answer == positive then 1 else 0
  }

  /** A cell of the one-row table: an integer or a category label. */
  datatype Cell = Num(n: int) | Text(category: string)

  /** A named column of the one-row table. */
  datatype RawColumn = RawColumn(name: string, cell: Cell)

  /** The one-row table, columns in the order the source lists them. */
  function InputFrame(r: InputRecord): seq<RawColumn>
  {
    [ RawColumn("usia", Num(r.usia)),
      RawColumn("durasi_pelatihan", Num(r.durasiPelatihan)),
      RawColumn("nilai_ujian", Num(r.nilaiUjian)),
      RawColumn("pendidikan", Text(r.pendidikan)),
      RawColumn("jurusan", Text(r.jurusan)),
      RawColumn("jenis_kelamin", Num(BinaryBit(r.jenisKelamin, Male))),
      RawColumn("status_bekerja", Num(BinaryBit(r.statusBekerja, Experienced))) ]
  }
}
