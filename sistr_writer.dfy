/** `SistrResultsWriter` and its subclasses: the table of SISTR results,
    one header row, one row per sample record (projects in ascending
    order, records by QC rank then sample name), and one footer row. The
    csv/xlsxwriter back ends are replaced by the list of rows they would
    be handed, each with the row counter and the end-of-project flag at
    that moment. */
module SistrWriter {
  import opened Outcome
  import opened Lists
  import opened Resources
  import opened SistrInfo
  import opened Sorting
  import Text

  /** Which subclass writes: `SistrExcelWriter` (the base class's rows),
      `SistrCsvWriter` (the percentage as text) or `SistrCsvWriterShort`. */
  datatype Layout = Full | Tabular | Short

  /** A value handed to the back end. `Proportion` is the float
      alleles/330; `Percent` is that proportion times 100 formatted with one
      decimal and a '%'; `Seconds` is a millisecond time divided by 1000. */
  datatype Cell =
    | ProjectId(project: int)
    | Str(text: string)
    | Int(n: int)
    | Real(x: real)
    | Proportion(alleles: int)
    | Percent(alleles: int)
    | Seconds(millis: int)
    | Null

  // ---------------------------------------------------------------- header

  /** A column of one of the headers. A column is named by the place it has
      in the base class's header (0 to 25); the three columns that only the
      short header has come after those. `Title` is the text written for it. */
  newtype Column = c: int | 0 <= c < 29

  const ProjectIdColumn: Column := 0
  const SampleNameColumn: Column := 1
  const QcStatusColumn: Column := 2
  const SerovarColumn: Column := 3
  const SerovarAntigenColumn: Column := 4
  const SerovarCgmlstColumn: Column := 5
  const SerogroupColumn: Column := 6
  const H1Column: Column := 7
  const H2Column: Column := 8
  const OAntigenColumn: Column := 9
  const CgmlstSubspeciesColumn: Column := 10
  const CgmlstGenomeColumn: Column := 11
  const AllelesMatchingGenomeColumn: Column := 12
  const PercentMatchingColumn: Column := 13
  const SequenceTypeColumn: Column := 14
  const MashSubspeciesColumn: Column := 15
  const MashSerovarColumn: Column := 16
  const MashGenomeColumn: Column := 17
  const MashDistanceColumn: Column := 18
  const QcMessagesColumn: Column := 19
  const IridaUrlColumn: Column := 20
  const SampleCreatedDateColumn: Column := 21
  const SampleIdColumn: Column := 22
  const FilePairIdColumn: Column := 23
  const SubmissionIdColumn: Column := 24
  const AnalysisDateColumn: Column := 25
  const CreatedDateColumn: Column := 26
  const CgmlstAllelesMatchingColumn: Column := 27
  const AnalysisUrlColumn: Column := 28

  function Title(c: Column): string {
    if c == ProjectIdColumn then "Project ID"
    else if c == SampleNameColumn then "Sample Name"
    else if c == QcStatusColumn then "QC Status"
    else if c == SerovarColumn then "Serovar (overall)"
    else if c == SerovarAntigenColumn then "Serovar (antigen)"
    else if c == SerovarCgmlstColumn then "Serovar (cgMLST)"
    else if c == SerogroupColumn then "Serogroup"
    else if c == H1Column then "H1"
    else if c == H2Column then "H2"
    else if c == OAntigenColumn then "O-antigen"
    else if c == CgmlstSubspeciesColumn then "cgMLST Subspecies"
    else if c == CgmlstGenomeColumn then "cgMLST Matching Genome"
    else if c == AllelesMatchingGenomeColumn then "Alleles Matching Genome"
    else if c == PercentMatchingColumn then "cgMLST Percent Matching"
    else if c == SequenceTypeColumn then "cgMLST Sequence Type"
    else if c == MashSubspeciesColumn then "Mash Subspecies"
    else if c == MashSerovarColumn then "Mash Serovar"
    else if c == MashGenomeColumn then "Mash Matching Genome Name"
    else if c == MashDistanceColumn then "Mash Distance"
    else if c == QcMessagesColumn then "QC Messages"
    else if c == IridaUrlColumn then "IRIDA URL"
    else if c == SampleCreatedDateColumn then "Sample Created Date"
    else if c == SampleIdColumn then "IRIDA Sample Identifier"
    else if c == FilePairIdColumn then "IRIDA File Pair Identifier"
    else if c == SubmissionIdColumn then "IRIDA Submission Identifier"
    else if c == AnalysisDateColumn then "IRIDA Analysis Date"
    else if c == CreatedDateColumn then "Created Date"
    else if c == CgmlstAllelesMatchingColumn then "cgMLST Alleles Matching"
    else "IRIDA Analysis URL"
  }

  /** No two columns share a title, so a title names one column. */
  lemma TitlesDistinct(a: Column, b: Column)
    requires a != b
    ensures Title(a) != Title(b)
  {
  }

  function ColumnCount(layout: Layout): nat {
    if layout == Short then 10 else 26
  }

  /** The header of `SistrCsvWriterShort`. */
  const ShortHeader: seq<Column> :=
    [ProjectIdColumn, SampleNameColumn, QcStatusColumn, CreatedDateColumn, SerovarColumn,
     SerovarAntigenColumn, SerovarCgmlstColumn, CgmlstAllelesMatchingColumn, PercentMatchingColumn, AnalysisUrlColumn]

  /** `_get_header_list`: the base class's 26 columns in the order of their
      names, or the shorter list of `SistrCsvWriterShort`. */
  function HeaderList(layout: Layout): (h: seq<Column>)
    ensures |h| == ColumnCount(layout)
  {
    if layout == Short then ShortHeader else seq(26, (k: int) requires 0 <= k < 26 => k as Column)
  }

  /** Where `column` stands in the header, if it is there. */
  function Position(layout: Layout, column: Column): Option<nat> {
    if layout != Short then
      if column < 26 then Some(column as nat) else None
    else if column == ProjectIdColumn then Some(0)
    else if column == SampleNameColumn then Some(1)
    else if column == QcStatusColumn then Some(2)
    else if column == CreatedDateColumn then Some(3)
    else if column == SerovarColumn then Some(4)
    else if column == SerovarAntigenColumn then Some(5)
    else if column == SerovarCgmlstColumn then Some(6)
    else if column == CgmlstAllelesMatchingColumn then Some(7)
    else if column == PercentMatchingColumn then Some(8)
    else if column == AnalysisUrlColumn then Some(9)
    else None
  }

  /** `Position` inverts the header: no column stands twice in it. */
  lemma PositionOfColumnAt(layout: Layout, k: nat)
    requires k < ColumnCount(layout)
    ensures Position(layout, HeaderList(layout)[k]) == Some(k)
  {
  }

  lemma ColumnAtPosition(layout: Layout, column: Column)
    requires Position(layout, column).Some?
    ensures Position(layout, column).value < ColumnCount(layout)
    ensures HeaderList(layout)[Position(layout, column).value] == column
  {
  }

  /** `_get_header_index`: `list.index` of the column, which raises
      ValueError for a column the header does not have. */
  function HeaderIndex(layout: Layout, column: Column): (r: Result<nat>)
    ensures r.Ok? <==> column in HeaderList(layout)
    ensures r.Ok? ==> r.value < |HeaderList(layout)| && HeaderList(layout)[r.value] == column
    ensures r.Err? ==> r.error == ValueError
  {
    var h := HeaderList(layout);
    if column in h then Ok(IndexOf(h, column)) else Err(ValueError)
  }

  /** The index the header search finds is the column's position, and a
      column without one is the ValueError case. */
  lemma HeaderIndexIsPosition(layout: Layout, column: Column)
    ensures HeaderIndex(layout, column) == if Position(layout, column).Some? then Ok(Position(layout, column).value)
                                           else Err(ValueError)
  {
    if column in HeaderList(layout) {
      PositionOfColumnAt(layout, HeaderIndex(layout, column).value);
    } else if Position(layout, column).Some? {
      ColumnAtPosition(layout, column);
    }
  }

  /** Each column of the header is found at its own position. */
  lemma HeaderIndexOfColumn(layout: Layout, i: nat)
    requires i < |HeaderList(layout)|
    ensures HeaderIndex(layout, HeaderList(layout)[i]) == Ok(i)
  {
    PositionOfColumnAt(layout, i);
    HeaderIndexIsPosition(layout, HeaderList(layout)[i]);
  }

  /** The cell of `cells` in column `column` is `cell`. */
  predicate Under(layout: Layout, cells: seq<Cell>, column: Column, cell: Cell) {
    forall i :: 0 <= i < |cells| && i < |HeaderList(layout)| && HeaderList(layout)[i] == column ==> cells[i] == cell
  }

  /** A column stands once in the header, so the cell at its position is
      the cell in that column. */
  lemma UnderAt(layout: Layout, cells: seq<Cell>, column: Column, cell: Cell)
    requires Position(layout, column).Some?
    requires Position(layout, column).value < |cells| && cells[Position(layout, column).value] == cell
    ensures Under(layout, cells, column, cell)
  {
    forall i | 0 <= i < |cells| && i < |HeaderList(layout)| && HeaderList(layout)[i] == column
      ensures cells[i] == cell
    {
      PositionOfColumnAt(layout, i);
    }
  }

  // ---------------------------------------------------------------- rows

  /** The row of `SistrCsvWriterShort` for a record with results, from its
      first prediction `p` and its analysis URL. */
  function ShortCells(project: int, info: Info, p: Prediction, cgmlst: string, url: string): (cells: seq<Cell>)
    ensures |cells| == 10
    ensures cells[0] == ProjectId(project) && cells[1] == Str(SampleName(info)) && cells[2] == Str(p.qcStatus)
    ensures cells[3] == Seconds(SampleCreatedMillis(info))
    ensures cells[4] == Str(p.serovar) && cells[5] == Str(p.serovarAntigen) && cells[6] == Str(cgmlst)
    ensures cells[7] == Int(p.cgmlstMatchingAlleles) && cells[8] == Percent(p.cgmlstMatchingAlleles)
    ensures cells[9] == Str(url)
  {
    [ProjectId(project), Str(SampleName(info)), Str(p.qcStatus), Seconds(SampleCreatedMillis(info)),
     Str(p.serovar), Str(p.serovarAntigen), Str(cgmlst), Int(p.cgmlstMatchingAlleles),
     Percent(p.cgmlstMatchingAlleles), Str(url)]
  }

  /** The cell of the base class's row (and, with the percentage as text,
      of `SistrCsvWriter`'s) in column `k`, for a record with results. */
  function FullCell(layout: Layout, project: int, info: Info, p: Prediction, cgmlst: string, url: string,
                    pairedId: string, submission: Submission, k: int): Cell
  {
    if k == 0 then ProjectId(project)
    else if k == 1 then Str(SampleName(info))
    else if k == 2 then Str(p.qcStatus)
    else if k == 3 then Str(p.serovar)
    else if k == 4 then Str(p.serovarAntigen)
    else if k == 5 then Str(cgmlst)
    else if k == 6 then Str(p.serogroup)
    else if k == 7 then Str(p.h1)
    else if k == 8 then Str(p.h2)
    else if k == 9 then Str(p.oAntigen)
    else if k == 10 then Str(p.cgmlstSubspecies)
    else if k == 11 then Str(p.cgmlstGenomeMatch)
    else if k == 12 then Int(p.cgmlstMatchingAlleles)
    else if k == 13 then (if layout == Tabular then Percent(p.cgmlstMatchingAlleles) else Proportion(p.cgmlstMatchingAlleles))
    else if k == 14 then Str(p.cgmlstSequenceType)
    else if k == 15 then Str(p.mashSubspecies)
    else if k == 16 then Str(p.mashSerovar)
    else if k == 17 then Str(p.mashGenome)
    else if k == 18 then Real(p.mashDistance)
    else if k == 19 then Str(p.qcMessages)
    else if k == 20 then Str(url)
    else if k == 21 then Seconds(SampleCreatedMillis(info))
    else if k == 22 then Str(SampleId(info))
    else if k == 23 then Str(pairedId)
    else if k == 24 then Str(submission.identifier)
    else Seconds(submission.createdDate)
  }

  /** The row of the base class (and, with the percentage as text, of
      `SistrCsvWriter`) for a record with results. */
  function FullCells(layout: Layout, project: int, info: Info, p: Prediction, cgmlst: string, url: string,
                     pairedId: string, submission: Submission): (cells: seq<Cell>)
    ensures |cells| == 26
    ensures cells[0] == ProjectId(project) && cells[1] == Str(SampleName(info)) && cells[2] == Str(p.qcStatus)
    ensures cells[3] == Str(p.serovar) && cells[4] == Str(p.serovarAntigen) && cells[5] == Str(cgmlst)
    ensures cells[6] == Str(p.serogroup) && cells[7] == Str(p.h1) && cells[8] == Str(p.h2)
    ensures cells[9] == Str(p.oAntigen) && cells[10] == Str(p.cgmlstSubspecies) && cells[11] == Str(p.cgmlstGenomeMatch)
    ensures cells[12] == Int(p.cgmlstMatchingAlleles) && cells[14] == Str(p.cgmlstSequenceType)
    ensures cells[15] == Str(p.mashSubspecies) && cells[16] == Str(p.mashSerovar) && cells[17] == Str(p.mashGenome)
    ensures cells[18] == Real(p.mashDistance) && cells[19] == Str(p.qcMessages) && cells[20] == Str(url)
    ensures cells[22] == Str(SampleId(info)) && cells[23] == Str(pairedId) && cells[24] == Str(submission.identifier)
    ensures cells[13] == if layout == Tabular then Percent(p.cgmlstMatchingAlleles) else Proportion(p.cgmlstMatchingAlleles)
    ensures cells[21] == Seconds(SampleCreatedMillis(info)) && cells[25] == Seconds(submission.createdDate)
  {
    seq(26, k => FullCell(layout, project, info, p, cgmlst, url, pairedId, submission, k))
  }

  /** `_get_row_list` of each subclass. The accessors are evaluated in
      column order: the prediction fields come first, then the submission
      URL, then (outside the short layout) the paired-file id, so the first
      of these that is missing decides the error. */
  function RowList(layout: Layout, iridaUrl: string, project: int, info: Info): (r: Result<seq<Cell>>)
    ensures r.Ok? <==> Sistr(info).Ok? && info.submission.Some? && (layout != Short ==> PairedId(info).Ok?)
    ensures r.Err? && Sistr(info).Err? ==> r.error == Sistr(info).error
    ensures r.Ok? ==> |r.value| == ColumnCount(layout)
  {
    var p :- Sistr(info);
    var url :- SubmissionUrl(info, iridaUrl);
    if layout == Short then
      Ok(ShortCells(project, info, p, SerovarCgmlst(info).value, url))
    else
      var pairedId :- PairedId(info);
      Ok(FullCells(layout, project, info, p, SerovarCgmlst(info).value, url, pairedId, info.submission.value))
  }

  /** The values of a short row with results, read through the record's
      accessors. */
  lemma ShortRowCells(iridaUrl: string, project: int, info: Info, cells: seq<Cell>)
    requires RowList(Short, iridaUrl, project, info) == Ok(cells)
    ensures |cells| == 10 && cells[0] == ProjectId(project) && cells[1] == Str(SampleName(info))
    ensures cells[2] == Str(QcStatus(info).value) && cells[3] == Seconds(SampleCreatedMillis(info))
    ensures cells[4] == Str(Serovar(info).value) && cells[5] == Str(SerovarAntigen(info).value)
    ensures cells[6] == Str(SerovarCgmlst(info).value) && cells[7] == Int(CgmlstMatchingAlleles(info).value)
    ensures cells[8] == Percent(CgmlstMatchingAlleles(info).value) && cells[9] == Str(SubmissionUrl(info, iridaUrl).value)
  {
    var p := Sistr(info).value;
    assert cells == ShortCells(project, info, p, SerovarCgmlst(info).value, SubmissionUrl(info, iridaUrl).value);
  }

  /** Header and row agree in the short layout on the columns read from
      the sample and the submission. */
  lemma ShortRowColumns(iridaUrl: string, project: int, info: Info, cells: seq<Cell>)
    requires RowList(Short, iridaUrl, project, info) == Ok(cells)
    ensures Under(Short, cells, ProjectIdColumn, ProjectId(project))
    ensures Under(Short, cells, SampleNameColumn, Str(SampleName(info)))
    ensures Under(Short, cells, CreatedDateColumn, Seconds(SampleCreatedMillis(info)))
    ensures Under(Short, cells, AnalysisUrlColumn, Str(SubmissionUrl(info, iridaUrl).value))
  {
    ShortRowCells(iridaUrl, project, info, cells);
    UnderAt(Short, cells, ProjectIdColumn, ProjectId(project));
    UnderAt(Short, cells, SampleNameColumn, Str(SampleName(info)));
    UnderAt(Short, cells, CreatedDateColumn, Seconds(SampleCreatedMillis(info)));
    UnderAt(Short, cells, AnalysisUrlColumn, Str(SubmissionUrl(info, iridaUrl).value));
  }

  /** Header and row agree in the short layout on the columns read from the
      first prediction. */
  lemma ShortRowPredictionColumns(iridaUrl: string, project: int, info: Info, cells: seq<Cell>)
    requires RowList(Short, iridaUrl, project, info) == Ok(cells)
    ensures Under(Short, cells, QcStatusColumn, Str(QcStatus(info).value))
    ensures Under(Short, cells, SerovarColumn, Str(Serovar(info).value))
    ensures Under(Short, cells, SerovarAntigenColumn, Str(SerovarAntigen(info).value))
    ensures Under(Short, cells, SerovarCgmlstColumn, Str(SerovarCgmlst(info).value))
    ensures Under(Short, cells, CgmlstAllelesMatchingColumn, Int(CgmlstMatchingAlleles(info).value))
    ensures Under(Short, cells, PercentMatchingColumn, Percent(CgmlstMatchingAlleles(info).value))
  {
    ShortRowCells(iridaUrl, project, info, cells);
    UnderAt(Short, cells, QcStatusColumn, Str(QcStatus(info).value));
    UnderAt(Short, cells, SerovarColumn, Str(Serovar(info).value));
    UnderAt(Short, cells, SerovarAntigenColumn, Str(SerovarAntigen(info).value));
    UnderAt(Short, cells, SerovarCgmlstColumn, Str(SerovarCgmlst(info).value));
    UnderAt(Short, cells, CgmlstAllelesMatchingColumn, Int(CgmlstMatchingAlleles(info).value));
    UnderAt(Short, cells, PercentMatchingColumn, Percent(CgmlstMatchingAlleles(info).value));
  }

  /** The values of a full row with results, read through the record's
      accessors. */
  lemma FullRowCells(layout: Layout, iridaUrl: string, project: int, info: Info, cells: seq<Cell>)
    requires layout != Short && RowList(layout, iridaUrl, project, info) == Ok(cells)
    ensures |cells| == 26 && cells[0] == ProjectId(project) && cells[1] == Str(SampleName(info))
    ensures cells[2] == Str(QcStatus(info).value) && cells[3] == Str(Serovar(info).value)
    ensures cells[4] == Str(SerovarAntigen(info).value) && cells[5] == Str(SerovarCgmlst(info).value)
    ensures cells[6] == Str(Serogroup(info).value) && cells[7] == Str(H1(info).value) && cells[8] == Str(H2(info).value)
    ensures cells[9] == Str(OAntigen(info).value) && cells[10] == Str(CgmlstSubspecies(info).value)
    ensures cells[11] == Str(CgmlstGenome(info).value) && cells[12] == Int(CgmlstMatchingAlleles(info).value)
    ensures cells[13] == if layout == Tabular then Percent(CgmlstMatchingAlleles(info).value)
                         else Proportion(CgmlstMatchingAlleles(info).value)
    ensures cells[14] == Str(CgmlstSequenceType(info).value) && cells[15] == Str(MashSubspecies(info).value)
    ensures cells[16] == Str(MashSerovar(info).value) && cells[17] == Str(MashGenome(info).value)
    ensures cells[18] == Real(MashDistance(info).value) && cells[19] == Str(QcMessages(info).value)
    ensures cells[20] == Str(SubmissionUrl(info, iridaUrl).value) && cells[21] == Seconds(SampleCreatedMillis(info))
    ensures cells[22] == Str(SampleId(info)) && cells[23] == Str(PairedId(info).value)
    ensures cells[24] == Str(SubmissionIdentifier(info).value) && cells[25] == Seconds(SubmissionCreatedMillis(info).value)
  {
    var p := Sistr(info).value;
    assert cells == FullCells(layout, project, info, p, SerovarCgmlst(info).value, SubmissionUrl(info, iridaUrl).value,
                              PairedId(info).value, info.submission.value);
  }

  /** Header and row agree in the full layouts on the columns read from the
      sample, the submission and the paired files. */
  lemma FullRowColumns(layout: Layout, iridaUrl: string, project: int, info: Info, cells: seq<Cell>)
    requires layout != Short && RowList(layout, iridaUrl, project, info) == Ok(cells)
    ensures Under(layout, cells, ProjectIdColumn, ProjectId(project))
    ensures Under(layout, cells, SampleNameColumn, Str(SampleName(info)))
    ensures Under(layout, cells, IridaUrlColumn, Str(SubmissionUrl(info, iridaUrl).value))
    ensures Under(layout, cells, SampleCreatedDateColumn, Seconds(SampleCreatedMillis(info)))
    ensures Under(layout, cells, SampleIdColumn, Str(SampleId(info)))
    ensures Under(layout, cells, FilePairIdColumn, Str(PairedId(info).value))
    ensures Under(layout, cells, SubmissionIdColumn, Str(SubmissionIdentifier(info).value))
    ensures Under(layout, cells, AnalysisDateColumn, Seconds(SubmissionCreatedMillis(info).value))
  {
    FullRowCells(layout, iridaUrl, project, info, cells);
    UnderAt(layout, cells, ProjectIdColumn, ProjectId(project));
    UnderAt(layout, cells, SampleNameColumn, Str(SampleName(info)));
    UnderAt(layout, cells, IridaUrlColumn, Str(SubmissionUrl(info, iridaUrl).value));
    UnderAt(layout, cells, SampleCreatedDateColumn, Seconds(SampleCreatedMillis(info)));
    UnderAt(layout, cells, SampleIdColumn, Str(SampleId(info)));
    UnderAt(layout, cells, FilePairIdColumn, Str(PairedId(info).value));
    UnderAt(layout, cells, SubmissionIdColumn, Str(SubmissionIdentifier(info).value));
    UnderAt(layout, cells, AnalysisDateColumn, Seconds(SubmissionCreatedMillis(info).value));
  }

  /** Header and row agree in the full layouts on the columns read from the
      first prediction. */
  lemma FullRowPredictionColumns(layout: Layout, iridaUrl: string, project: int, info: Info, cells: seq<Cell>)
    requires layout != Short && RowList(layout, iridaUrl, project, info) == Ok(cells)
    ensures Under(layout, cells, QcStatusColumn, Str(QcStatus(info).value))
    ensures Under(layout, cells, SerovarColumn, Str(Serovar(info).value))
    ensures Under(layout, cells, SerovarAntigenColumn, Str(SerovarAntigen(info).value))
    ensures Under(layout, cells, SerovarCgmlstColumn, Str(SerovarCgmlst(info).value))
    ensures Under(layout, cells, SerogroupColumn, Str(Serogroup(info).value))
    ensures Under(layout, cells, H1Column, Str(H1(info).value))
    ensures Under(layout, cells, H2Column, Str(H2(info).value))
    ensures Under(layout, cells, OAntigenColumn, Str(OAntigen(info).value))
    ensures Under(layout, cells, CgmlstSubspeciesColumn, Str(CgmlstSubspecies(info).value))
    ensures Under(layout, cells, CgmlstGenomeColumn, Str(CgmlstGenome(info).value))
    ensures Under(layout, cells, AllelesMatchingGenomeColumn, Int(CgmlstMatchingAlleles(info).value))
    ensures Under(layout, cells, PercentMatchingColumn, cells[13]) &&
            cells[13] in {Percent(CgmlstMatchingAlleles(info).value), Proportion(CgmlstMatchingAlleles(info).value)}
    ensures Under(layout, cells, SequenceTypeColumn, Str(CgmlstSequenceType(info).value))
    ensures Under(layout, cells, MashSubspeciesColumn, Str(MashSubspecies(info).value))
    ensures Under(layout, cells, MashSerovarColumn, Str(MashSerovar(info).value))
    ensures Under(layout, cells, MashGenomeColumn, Str(MashGenome(info).value))
    ensures Under(layout, cells, MashDistanceColumn, Real(MashDistance(info).value))
    ensures Under(layout, cells, QcMessagesColumn, Str(QcMessages(info).value))
  {
    FullRowCells(layout, iridaUrl, project, info, cells);
    UnderAt(layout, cells, QcStatusColumn, Str(QcStatus(info).value));
    UnderAt(layout, cells, SerovarColumn, Str(Serovar(info).value));
    UnderAt(layout, cells, SerovarAntigenColumn, Str(SerovarAntigen(info).value));
    UnderAt(layout, cells, SerovarCgmlstColumn, Str(SerovarCgmlst(info).value));
    UnderAt(layout, cells, SerogroupColumn, Str(Serogroup(info).value));
    UnderAt(layout, cells, H1Column, Str(H1(info).value));
    UnderAt(layout, cells, H2Column, Str(H2(info).value));
    UnderAt(layout, cells, OAntigenColumn, Str(OAntigen(info).value));
    UnderAt(layout, cells, CgmlstSubspeciesColumn, Str(CgmlstSubspecies(info).value));
    UnderAt(layout, cells, CgmlstGenomeColumn, Str(CgmlstGenome(info).value));
    UnderAt(layout, cells, AllelesMatchingGenomeColumn, Int(CgmlstMatchingAlleles(info).value));
    UnderAt(layout, cells, PercentMatchingColumn, cells[13]);
    UnderAt(layout, cells, SequenceTypeColumn, Str(CgmlstSequenceType(info).value));
    UnderAt(layout, cells, MashSubspeciesColumn, Str(MashSubspecies(info).value));
    UnderAt(layout, cells, MashSerovarColumn, Str(MashSerovar(info).value));
    UnderAt(layout, cells, MashGenomeColumn, Str(MashGenome(info).value));
    UnderAt(layout, cells, MashDistanceColumn, Real(MashDistance(info).value));
    UnderAt(layout, cells, QcMessagesColumn, Str(QcMessages(info).value));
  }

  /** The columns a no-results row fills in. */
  function FilledWithoutResults(layout: Layout): set<Column> {
    if layout == Short then {ProjectIdColumn, SampleNameColumn, QcStatusColumn}
    else {ProjectIdColumn, SampleNameColumn, QcStatusColumn, SampleCreatedDateColumn, SampleIdColumn}
  }

  /** The positions a no-results row fills in. */
  function FilledPositions(layout: Layout): set<int> {
    if layout == Short then {0, 1, 2} else {0, 1, 2, 21, 22}
  }

  /** The cells of a no-results row with QC status `qc`. */
  function NoResultsCells(layout: Layout, project: int, info: Info, qc: string): (cells: seq<Cell>)
    ensures |cells| == ColumnCount(layout)
    ensures cells[0] == ProjectId(project) && cells[1] == Str(SampleName(info)) && cells[2] == Str(qc)
    ensures layout != Short ==> cells[21] == Seconds(SampleCreatedMillis(info)) && cells[22] == Str(SampleId(info))
    ensures forall i :: 0 <= i < |cells| && i !in FilledPositions(layout) ==> cells[i] == Null
  {
    var head := [ProjectId(project), Str(SampleName(info)), Str(qc)];
    if layout == Short then
      head + seq(7, _ => Null)
    else
      head + seq(18, _ => Null) + [Seconds(SampleCreatedMillis(info)), Str(SampleId(info))] + seq(3, _ => Null)
  }

  /** `_get_no_results_row_list`: project, name and QC status (and, in the
      full layouts, the sample's date and id), every other cell empty. The
      QC status is read from the predictions, so a record without them
      raises here. */
  function NoResultsRowList(layout: Layout, project: int, info: Info): (r: Result<seq<Cell>>)
    ensures r.Ok? <==> Sistr(info).Ok?
    ensures r.Err? ==> r.error == Sistr(info).error
    ensures r.Ok? ==> |r.value| == ColumnCount(layout)
  {
    var p :- Sistr(info);
    Ok(NoResultsCells(layout, project, info, p.qcStatus))
  }

  /** Header and no-results row agree: the filled columns hold the
      record's values. */
  lemma NoResultsColumns(layout: Layout, project: int, info: Info, cells: seq<Cell>)
    requires NoResultsRowList(layout, project, info) == Ok(cells)
    ensures Under(layout, cells, ProjectIdColumn, ProjectId(project))
    ensures Under(layout, cells, SampleNameColumn, Str(SampleName(info)))
    ensures Under(layout, cells, QcStatusColumn, Str(QcStatus(info).value))
    ensures layout != Short ==> Under(layout, cells, SampleCreatedDateColumn, Seconds(SampleCreatedMillis(info)))
    ensures layout != Short ==> Under(layout, cells, SampleIdColumn, Str(SampleId(info)))
  {
    if layout != Short {
      UnderAt(layout, cells, SampleCreatedDateColumn, Seconds(SampleCreatedMillis(info)));
      UnderAt(layout, cells, SampleIdColumn, Str(SampleId(info)));
    }
    UnderAt(layout, cells, ProjectIdColumn, ProjectId(project));
    UnderAt(layout, cells, SampleNameColumn, Str(SampleName(info)));
    UnderAt(layout, cells, QcStatusColumn, Str(QcStatus(info).value));
  }

  /** Every column of a no-results row other than the filled ones is empty. */
  lemma NoResultsEmpty(layout: Layout, project: int, info: Info, qc: string)
    ensures var cells := NoResultsCells(layout, project, info, qc);
            forall i :: 0 <= i < |cells| && HeaderList(layout)[i] !in FilledWithoutResults(layout) ==> cells[i] == Null
  {
  }

  /** The row `write` hands over for one record. */
  function RowCells(layout: Layout, iridaUrl: string, project: int, info: Info): (r: Result<seq<Cell>>)
    ensures r.Ok? ==> |r.value| == ColumnCount(layout)
  {
    if HasSistrResults(info) then RowList(layout, iridaUrl, project, info) else NoResultsRowList(layout, project, info)
  }

  /** Every column of `cells` outside the ones a no-results row fills is empty. */
  predicate OnlyFilled(layout: Layout, cells: seq<Cell>) {
    forall i :: 0 <= i < |cells| && i < |HeaderList(layout)| && HeaderList(layout)[i] !in FilledWithoutResults(layout) ==>
      cells[i] == Null
  }

  /** One filled cell outside the filled columns is enough to tell a row
      from a no-results row. */
  lemma NotOnlyFilled(layout: Layout, cells: seq<Cell>, i: int)
    requires 0 <= i < |cells| && i < |HeaderList(layout)|
    requires HeaderList(layout)[i] !in FilledWithoutResults(layout) && cells[i] != Null
    ensures !OnlyFilled(layout, cells)
  {
  }

  /** The serovar column is not one a no-results row fills. */
  lemma SerovarUnfilled(layout: Layout)
    ensures var i := if layout == Short then 4 else 3;
            i < |HeaderList(layout)| && HeaderList(layout)[i] == SerovarColumn && SerovarColumn !in FilledWithoutResults(layout)
  {
  }

  /** A row with results fills the serovar column, which a no-results row
      leaves empty. */
  lemma SerovarShown(layout: Layout, iridaUrl: string, project: int, info: Info, cells: seq<Cell>)
    requires RowList(layout, iridaUrl, project, info) == Ok(cells)
    ensures var i := if layout == Short then 4 else 3;
            i < |cells| && HeaderList(layout)[i] == SerovarColumn && cells[i] == Str(Serovar(info).value)
    ensures !OnlyFilled(layout, cells)
  {
    if layout == Short {
      ShortRowCells(iridaUrl, project, info, cells);
    } else {
      FullRowCells(layout, iridaUrl, project, info, cells);
    }
    SerovarUnfilled(layout);
    NotOnlyFilled(layout, cells, if layout == Short then 4 else 3);
  }

  /** A no-results row is empty outside the filled columns. */
  lemma NoResultsOnlyFilled(layout: Layout, project: int, info: Info, cells: seq<Cell>)
    requires NoResultsRowList(layout, project, info) == Ok(cells)
    ensures OnlyFilled(layout, cells)
  {
    NoResultsEmpty(layout, project, info, Sistr(info).value.qcStatus);
  }

  /** A record with results is written with its full row, any other record
      with the no-results row; of the two, only the no-results row leaves
      every column outside the filled ones empty, so the written row shows
      which kind of record it came from. */
  lemma RowChoice(layout: Layout, iridaUrl: string, project: int, info: Info)
    ensures HasSistrResults(info) ==> RowCells(layout, iridaUrl, project, info) == RowList(layout, iridaUrl, project, info)
    ensures !HasSistrResults(info) ==> RowCells(layout, iridaUrl, project, info) == NoResultsRowList(layout, project, info)
    ensures var r := RowCells(layout, iridaUrl, project, info);
            r.Ok? ==> (!HasSistrResults(info) <==> OnlyFilled(layout, r.value))
  {
    var r := RowCells(layout, iridaUrl, project, info);
    if r.Ok? {
      if HasSistrResults(info) {
        SerovarShown(layout, iridaUrl, project, info, r.value);
      } else {
        NoResultsOnlyFilled(layout, project, info, r.value);
      }
    }
  }

  // ---------------------------------------------------------------- spreadsheet ranges (SistrExcelWriter)

  /** `_to_letter`: `chr(ord('A') + col)`; the header's 26 columns are the
      letters A to Z. */
  function ToLetter(col: int): (c: char)
    requires ValidColumn(col)
    ensures 0 <= col < 26 <==> 'A' <= c <= 'Z'
  {
    ('A' as int + col) as char
  }

  /** `chr` is defined on this range of numbers. */
  predicate ValidColumn(col: int) {
    0 <= 'A' as int + col < 0xD800
  }

  /** The column a letter stands for, the inverse of `ToLetter`. */
  function ColumnOf(c: char): int {
    c as int - 'A' as int
  }

  /** `_to_range_col`: "<start letter>:<end letter>". */
  function ToRangeCol(startCol: int, endCol: int): (s: string)
    requires ValidColumn(startCol) && ValidColumn(endCol)
    ensures |s| == 3 && s[1] == ':'
    ensures ColumnOf(s[0]) == startCol && ColumnOf(s[2]) == endCol
  {
    [ToLetter(startCol)] + ":" + [ToLetter(endCol)]
  }

  /** `_to_range`: "<start letter><start row>:<end letter><end row>". */
  function ToRange(startRow: int, endRow: int, startCol: int, endCol: int): string
    requires ValidColumn(startCol) && ValidColumn(endCol)
  {
    [ToLetter(startCol)] + Text.IntToString(startRow) + ":" + [ToLetter(endCol)] + Text.IntToString(endRow)
  }

  /** `_to_range_col_1`: the two columns in the first row. */
  function ToRangeCol1(startCol: int, endCol: int): string
    requires ValidColumn(startCol) && ValidColumn(endCol)
  {
    [ToLetter(startCol)] + "1:" + [ToLetter(endCol)] + "1"
  }

  /** `_to_range_col_1` is `_to_range` over row 1 alone. */
  lemma RangeCol1IsRange(startCol: int, endCol: int)
    requires ValidColumn(startCol) && ValidColumn(endCol)
    ensures ToRangeCol1(startCol, endCol) == ToRange(1, 1, startCol, endCol)
  {
    assert Text.IntToString(1) == "1";
  }

  /** `_get_header_column_number`: the column's position counted from 1. */
  function HeaderColumnNumber(column: Column): (r: Result<nat>)
    ensures r.Ok? <==> column in HeaderList(Full)
    ensures r.Ok? ==> 1 <= r.value <= |HeaderList(Full)| && HeaderList(Full)[r.value - 1] == column
  {
    var index :- HeaderIndex(Full, column);
    Ok(index + 1)
  }

  /** `_get_header_column_letter`: the column's letter, A to Z. */
  function HeaderColumnLetter(column: Column): (r: Result<char>)
    ensures r.Ok? <==> column in HeaderList(Full)
    ensures r.Ok? ==> 'A' <= r.value <= 'Z' && HeaderList(Full)[ColumnOf(r.value)] == column
  {
    var index :- HeaderIndex(Full, column);
    Ok(ToLetter(index))
  }

  /** `_range_title`: the header cells of two columns, found in the Excel
      header; a column it does not have raises ValueError. */
  function RangeTitle(startColumn: Column, endColumn: Column): (r: Result<string>)
    ensures r.Ok? <==> startColumn in HeaderList(Full) && endColumn in HeaderList(Full)
    ensures r.Ok? ==> r.value == ToRange(1, 1, HeaderIndex(Full, startColumn).value, HeaderIndex(Full, endColumn).value)
  {
    var startCol :- HeaderIndex(Full, startColumn);
    var endCol :- HeaderIndex(Full, endColumn);
    RangeCol1IsRange(startCol, endCol);
    Ok(ToRangeCol1(startCol, endCol))
  }

  /** `_range_stitle`: one column's header cell. */
  function RangeSingleTitle(column: Column): (r: Result<string>)
    ensures r.Ok? <==> column in HeaderList(Full)
    ensures r.Ok? ==> var col := HeaderIndex(Full, column).value; r.value == ToRange(1, 1, col, col)
  {
    RangeTitle(column, column)
  }

  /** `_to_range_row`: one column from `startRow` to `endRow`. */
  function ToRangeRow(column: Column, startRow: int, endRow: int): (r: Result<string>)
    ensures r.Ok? <==> column in HeaderList(Full)
    ensures r.Ok? ==> var col := HeaderIndex(Full, column).value; r.value == ToRange(startRow, endRow, col, col)
  {
    var letter :- HeaderColumnLetter(column);
    Ok([letter] + Text.IntToString(startRow) + ":" + [letter] + Text.IntToString(endRow))
  }

  /** The column groups the Excel writer's `_write_header` sets a width
      for, with that width. */
  function WidthSpans(): seq<(Column, Column, int)> {
    [ (ProjectIdColumn, ProjectIdColumn, 15), (SampleNameColumn, SerogroupColumn, 20), (H1Column, H1Column, 10),
      (H2Column, H2Column, 10), (OAntigenColumn, CgmlstSubspeciesColumn, 20),
      (CgmlstGenomeColumn, SequenceTypeColumn, 25), (MashSubspeciesColumn, MashSerovarColumn, 20),
      (MashGenomeColumn, AnalysisDateColumn, 30) ]
  }

  /** In the base class's header a column's index is the number that
      names it. */
  lemma FullHeaderIndex(column: Column)
    ensures HeaderIndex(Full, column) == if column < 26 then Ok(column as nat) else Err(ValueError)
  {
    HeaderIndexIsPosition(Full, column);
  }

  /** `spans` are consecutive ranges of the base class's header, the first
      starting at column `from` and the last ending at its last column. */
  predicate Tiles(spans: seq<(Column, Column, int)>, from: int)
    decreases |spans|
  {
    if spans == [] then from == 26
    else spans[0].0 as int == from && spans[0].0 <= spans[0].1 && Tiles(spans[1..], spans[0].1 as int + 1)
  }

  /** Some range of `spans` holds column `c`. */
  predicate Covered(spans: seq<(Column, Column, int)>, c: Column) {
    exists k :: 0 <= k < |spans| && spans[k].0 <= c <= spans[k].1
  }

  /** Tiling ranges lie inside the header and do not overlap. */
  lemma {:induction false} TilesBounds(spans: seq<(Column, Column, int)>, from: int)
    requires Tiles(spans, from)
    ensures forall k :: 0 <= k < |spans| ==> from <= spans[k].0 as int && spans[k].0 <= spans[k].1 < 26
    ensures forall i, j :: 0 <= i < j < |spans| ==> spans[i].1 < spans[j].0
    decreases |spans|
  {
    if spans != [] {
      TilesBounds(spans[1..], spans[0].1 as int + 1);
      assert forall k :: 1 <= k < |spans| ==> spans[k] == spans[1..][k - 1];
    }
  }

  /** Tiling ranges leave no column of the header out. */
  lemma {:induction false} TilesCover(spans: seq<(Column, Column, int)>, from: int, c: Column)
    requires Tiles(spans, from) && from <= c as int < 26
    ensures Covered(spans, c)
    decreases |spans|
  {
    if c > spans[0].1 {
      TilesCover(spans[1..], spans[0].1 as int + 1, c);
      var k :| 0 <= k < |spans[1..]| && spans[1..][k].0 <= c <= spans[1..][k].1;
      assert spans[k + 1] == spans[1..][k];
    } else {
      assert spans[0].0 <= c <= spans[0].1;
    }
  }

  /** Every width is set on a range the header has, and the ranges cover
      the header's columns A to Z in order, each column once. */
  lemma WidthSpansTile()
    ensures forall k :: 0 <= k < |WidthSpans()| ==> RangeTitle(WidthSpans()[k].0, WidthSpans()[k].1).Ok?
    ensures forall c: Column :: c < 26 ==> Covered(WidthSpans(), c)
    ensures forall i, j :: 0 <= i < j < |WidthSpans()| ==> WidthSpans()[i].1 < WidthSpans()[j].0
  {
    var spans := WidthSpans();
    assert Tiles(spans, 0);
    TilesBounds(spans, 0);
    forall c: Column | c < 26
      ensures Covered(spans, c)
    {
      TilesCover(spans, 0, c);
    }
    forall k | 0 <= k < |spans|
      ensures RangeTitle(spans[k].0, spans[k].1).Ok?
    {
      FullHeaderIndex(spans[k].0);
      FullHeaderIndex(spans[k].1);
    }
  }

  datatype Range = Range(startRow: int, endRow: int, startCol: int, endCol: int)

  /** The position of the first ':' in `s`. */
  function FirstColon(s: string): (k: Option<nat>)
    ensures k.None? ==> ':' !in s
    ensures k.Some? ==> k.value < |s| && s[k.value] == ':' && ':' !in s[..k.value]
  {
    if s == [] then None
    else if s[0] == ':' then Some(0)
    else
      match FirstColon(s[1..])
      case None => None
      case Some(k) =>
        assert s[..k + 1] == [s[0]] + s[1..][..k];
        Some(k + 1)
  }

  /** The first ':' after a colon-free prefix is where the suffix starts. */
  lemma {:induction false} FirstColonAfter(a: string, t: string)
    requires ':' !in a && t != [] && t[0] == ':'
    ensures FirstColon(a + t) == Some(|a|)
  {
    if a != [] {
      assert (a + t)[1..] == a[1..] + t;
      FirstColonAfter(a[1..], t);
    }
  }

  lemma NoColonInNumber(i: int)
    ensures ':' !in Text.IntToString(i)
  {
  }

  /** Reads a range written by `ToRange` back into its rows and columns. */
  function ParseRange(s: string): Option<Range> {
    if |s| < 2 then None
    else
      match FirstColon(s[1..])
      case None => None
      case Some(k) =>
        var i := 1 + k;
        if i + 1 >= |s| then None
        else
          match (Text.ParseInt(s[1..i]), Text.ParseInt(s[i + 2..]))
          case (Some(startRow), Some(endRow)) => Some(Range(startRow, endRow, ColumnOf(s[0]), ColumnOf(s[i + 1])))
          case _ => None
  }

  /** Where the pieces of `[x] + a + ":" + [y] + b` sit. */
  lemma RangePieces(x: char, a: string, y: char, b: string)
    ensures var s := [x] + a + ":" + [y] + b;
            var i := 1 + |a|;
            |s| == i + 2 + |b| && s[0] == x && s[1..] == a + (":" + [y] + b) &&
            s[1..i] == a && s[i + 1] == y && s[i + 2..] == b
  {
    var s := [x] + a + ":" + [y] + b;
    assert s[1..] == a + (":" + [y] + b);
  }

  /** A range string determines the rows and columns it was built from. */
  lemma RangeRoundTrip(startRow: int, endRow: int, startCol: int, endCol: int)
    requires ValidColumn(startCol) && ValidColumn(endCol)
    ensures ParseRange(ToRange(startRow, endRow, startCol, endCol)) == Some(Range(startRow, endRow, startCol, endCol))
  {
    var a := Text.IntToString(startRow);
    var b := Text.IntToString(endRow);
    var x, y := ToLetter(startCol), ToLetter(endCol);
    RangePieces(x, a, y, b);
    NoColonInNumber(startRow);
    FirstColonAfter(a, ":" + [y] + b);
    Text.IntToStringRoundTrip(startRow);
    Text.IntToStringRoundTrip(endRow);
  }

  /** `_formatting` of the Excel writer colours the QC status column from
      row 1 to the last row written. */
  function QcRange(lastRow: int): string {
    "C1:C" + Text.IntToString(lastRow)
  }

  /** The conditional formats land on the QC status column, column C. */
  lemma QcRangeIsQcColumn(lastRow: int)
    ensures ToRangeRow(QcStatusColumn, 1, lastRow) == Ok(QcRange(lastRow))
  {
    FullHeaderIndex(QcStatusColumn);
    var last := Text.IntToString(lastRow);
    assert ToLetter(2) == 'C';
    assert Text.IntToString(1) == "1";
    assert "C1:C" == ['C'] + "1" + ":" + ['C'];
    assert ToRange(1, lastRow, 2, 2) == ['C'] + "1" + ":" + ['C'] + last;
  }

  /** The Excel writer formats the "cgMLST Percent Matching" column as a
      percentage and the two date columns as dates: those are the columns
      where a row with results has its proportion and its times. */
  lemma ExcelFormatColumns(iridaUrl: string, project: int, info: Info, cells: seq<Cell>)
    requires RowList(Full, iridaUrl, project, info) == Ok(cells)
    ensures HeaderIndex(Full, PercentMatchingColumn) == Ok(13)
    ensures cells[13] == Proportion(CgmlstMatchingAlleles(info).value)
    ensures HeaderIndex(Full, SampleCreatedDateColumn) == Ok(21) && cells[21] == Seconds(SampleCreatedMillis(info))
    ensures HeaderIndex(Full, AnalysisDateColumn) == Ok(25)
    ensures cells[25] == Seconds(SubmissionCreatedMillis(info).value)
  {
    HeaderIndexOfColumn(Full, 13);
    HeaderIndexOfColumn(Full, 21);
    HeaderIndexOfColumn(Full, 25);
  }

  // ---------------------------------------------------------------- order of the table

  /** The writer's input: a project id (the key, compared as `int(key)`)
      and that project's records. */
  type ProjectRecords = (int, seq<Info>)

  function ProjectBefore(): (ProjectRecords, ProjectRecords) -> bool {
    (a: ProjectRecords, b: ProjectRecords) => a.0 < b.0
  }

  function NameBefore(): (Info, Info) -> bool {
    (a: Info, b: Info) => StrLt(SampleName(a), SampleName(b))
  }

  /** `reverse=True` on the numerical QC status: a higher rank goes first,
      equal ranks keep their order. */
  function RankBefore(rank: Info -> int): (Info, Info) -> bool {
    (a: Info, b: Info) => rank(a) > rank(b)
  }

  function SortedProjects(results: seq<ProjectRecords>): seq<ProjectRecords> {
    SortBy(results, ProjectBefore())
  }

  /** Sorted by sample name, then by QC rank, highest first. */
  function SortedRecords(infos: seq<Info>, rank: Info -> int): seq<Info> {
    SortBy(SortBy(infos, NameBefore()), RankBefore(rank))
  }

  /** The order `write` gives the records of one project. */
  function RecordOrder(rank: Info -> int): seq<Info> -> seq<Info> {
    infos => SortedRecords(infos, rank)
  }

  /** Projects are written in ascending order of their ids, each once. */
  lemma ProjectsAscending(results: seq<ProjectRecords>)
    ensures multiset(SortedProjects(results)) == multiset(results)
    ensures var r := SortedProjects(results);
            forall i, j :: 0 <= i < j < |r| ==> r[i].0 <= r[j].0
  {
    assert StrictWeakOrder(ProjectBefore());
    SortBySorted(results, ProjectBefore());
    SortByPermutes(results, ProjectBefore());
  }

  /** Records are written by QC rank, highest first, and among records of
      equal rank by sample name; no record is lost or repeated. */
  lemma RecordsOrder(infos: seq<Info>, rank: Info -> int)
    ensures multiset(SortedRecords(infos, rank)) == multiset(infos)
    ensures var r := SortedRecords(infos, rank);
            forall i, j :: 0 <= i < j < |r| ==>
              rank(r[i]) > rank(r[j]) || (rank(r[i]) == rank(r[j]) && !StrLt(SampleName(r[j]), SampleName(r[i])))
  {
    var byName := SortBy(infos, NameBefore());
    StrKeyOrder(NameBefore(), SampleName);
    SortBySorted(infos, NameBefore());
    var le := (a: Info, b: Info) => !StrLt(SampleName(b), SampleName(a));
    assert StrictWeakOrder(RankBefore(rank));
    SortByStable(byName, RankBefore(rank), le);
    SortByPermutes(infos, NameBefore());
    SortByPermutes(byName, RankBefore(rank));
  }

  // ---------------------------------------------------------------- the lines handed to the back end

  /** What `_write_header` and `_write_row` receive, with the row counter
      and the end-of-project flag at that moment. */
  datatype Line =
    | Header(row: int, columns: seq<Column>)
    | Row(row: int, endOfProject: bool, cells: seq<Cell>)

  /** The footer's text; `version` and `now` (the formatted current time)
      are parameters. */
  function FooterText(appname: string, version: string, iridaUrl: string, username: string, now: string): string {
    "Results generated from " + appname + " version=" + version + " connecting to IRIDA=" + iridaUrl +
    " as user=" + username + " on date=" + now
  }

  /** How a row is built: `RowCells` of one layout and URL, given the
      project and the record. */
  type RowBuilder = (int, Info) -> Result<seq<Cell>>

  function RowOf(layout: Layout, iridaUrl: string): RowBuilder {
    (project: int, info: Info) => RowCells(layout, iridaUrl, project, info)
  }

  /** The rows of the first `|infos|` of a project's `n` sorted records,
      from row `start`, the flag being `entry` until the last record. */
  function ProjectLines(rowOf: RowBuilder, project: int, infos: seq<Info>, n: int, start: int, entry: bool)
    : Result<seq<Line>>
  {
    if infos == [] then Ok([])
    else
      var k := |infos| - 1;
      var init :- ProjectLines(rowOf, project, infos[..k], n, start, entry);
      var cells :- rowOf(project, infos[k]);
      Ok(init + [Row(start + k, k == n - 1 || entry, cells)])
  }

  /** A project's rows exist exactly when every record's row can be built. */
  lemma {:induction false} ProjectLinesOk(rowOf: RowBuilder, project: int, infos: seq<Info>, n: int, start: int,
                                          entry: bool)
    ensures ProjectLines(rowOf, project, infos, n, start, entry).Ok? <==>
            forall k :: 0 <= k < |infos| ==> rowOf(project, infos[k]).Ok?
  {
    if infos != [] {
      var init := infos[..|infos| - 1];
      ProjectLinesOk(rowOf, project, init, n, start, entry);
      assert forall k :: 0 <= k < |init| ==> init[k] == infos[k];
    }
  }

  /** Record `k` of a project is on row `start + k`, flagged when it is
      the last one. */
  lemma {:induction false} ProjectLinesShape(rowOf: RowBuilder, project: int, infos: seq<Info>, n: int, start: int,
                                             entry: bool)
    requires ProjectLines(rowOf, project, infos, n, start, entry).Ok?
    ensures var lines := ProjectLines(rowOf, project, infos, n, start, entry).value;
            |lines| == |infos| &&
            forall k :: 0 <= k < |infos| ==>
              lines[k].Row? && lines[k].row == start + k && lines[k].endOfProject == (k == n - 1 || entry) &&
              rowOf(project, infos[k]) == Ok(lines[k].cells)
  {
    if infos != [] {
      var init := infos[..|infos| - 1];
      ProjectLinesShape(rowOf, project, init, n, start, entry);
      assert forall k :: 0 <= k < |init| ==> init[k] == infos[k];
    }
  }

  /** One row per record of a project. */
  lemma ProjectLinesCount(rowOf: RowBuilder, project: int, infos: seq<Info>, n: int, start: int, entry: bool)
    requires ProjectLines(rowOf, project, infos, n, start, entry).Ok?
    ensures |ProjectLines(rowOf, project, infos, n, start, entry).value| == |infos|
  {
    ProjectLinesShape(rowOf, project, infos, n, start, entry);
  }

  /** One more record's row after the rows of the records before it. */
  lemma ProjectLinesSnoc(rowOf: RowBuilder, project: int, infos: seq<Info>, k: nat, n: int, start: int, entry: bool,
                         lines: seq<Line>, cells: seq<Cell>)
    requires k < |infos|
    requires ProjectLines(rowOf, project, infos[..k], n, start, entry) == Ok(lines)
    requires rowOf(project, infos[k]) == Ok(cells)
    ensures ProjectLines(rowOf, project, infos[..k + 1], n, start, entry) ==
            Ok(lines + [Row(start + k, k == n - 1 || entry, cells)])
  {
    assert infos[..k + 1][..k] == infos[..k];
  }

  /** The number of records over all projects. */
  function RecordCount(projects: seq<ProjectRecords>): nat {
    if projects == [] then 0 else |projects[0].1| + RecordCount(projects[1..])
  }

  /** The rows of `projects`, already in order, from row `start`; the flag
      is `entry` on arrival and cleared after each project. */
  function TableLines(rowOf: RowBuilder, projects: seq<ProjectRecords>, order: seq<Info> -> seq<Info>, start: int, entry: bool)
    : Result<seq<Line>>
    decreases |projects|
  {
    if projects == [] then Ok([])
    else
      var records := order(projects[0].1);
      var first :- ProjectLines(rowOf, projects[0].0, records, |records|, start, entry);
      var rest :- TableLines(rowOf, projects[1..], order, start + |records|, false);
      Ok(first + rest)
  }

  /** A project's records keep their number when sorted. */
  lemma SortedRecordsLength(infos: seq<Info>, rank: Info -> int)
    ensures |SortedRecords(infos, rank)| == |infos|
  {
  }

  /** Sorting keeps the same records. */
  lemma SortedRecordsMembers(infos: seq<Info>, rank: Info -> int)
    ensures forall info :: info in SortedRecords(infos, rank) <==> info in infos
  {
    var records := SortedRecords(infos, rank);
    RecordsOrder(infos, rank);
    forall info
      ensures info in records <==> info in infos
    {
      assert info in multiset(records) <==> info in multiset(infos);
    }
  }

  /** One row per record, whatever order the records of a project are put
      in, as long as none is lost or added. */
  lemma {:induction false} TableLinesCount(rowOf: RowBuilder, projects: seq<ProjectRecords>,
                                           order: seq<Info> -> seq<Info>, start: int, entry: bool)
    requires forall infos :: |order(infos)| == |infos|
    requires TableLines(rowOf, projects, order, start, entry).Ok?
    ensures |TableLines(rowOf, projects, order, start, entry).value| == RecordCount(projects)
    decreases |projects|
  {
    if projects != [] {
      var records := order(projects[0].1);
      ProjectLinesCount(rowOf, projects[0].0, records, |records|, start, entry);
      TableLinesCount(rowOf, projects[1..], order, start + |records|, false);
    }
  }

  /** The order `write` uses keeps the number of records. */
  lemma RecordOrderLength(rank: Info -> int)
    ensures forall infos :: |RecordOrder(rank)(infos)| == |infos|
  {
    forall infos
      ensures |RecordOrder(rank)(infos)| == |infos|
    {
      SortedRecordsLength(infos, rank);
    }
  }

  lemma {:induction false} RecordCountAppend(a: seq<ProjectRecords>, b: seq<ProjectRecords>)
    ensures RecordCount(a + b) == RecordCount(a) + RecordCount(b)
  {
    if a == [] {
      assert a + b == b;
    } else {
      assert (a + b)[1..] == a[1..] + b;
      RecordCountAppend(a[1..], b);
    }
  }

  lemma {:induction false} RecordCountInsert(s: seq<ProjectRecords>, x: ProjectRecords,
                                             before: (ProjectRecords, ProjectRecords) -> bool)
    ensures RecordCount(Insert(s, x, before)) == RecordCount(s) + |x.1|
  {
    assert RecordCount([x]) == |x.1|;
    if s == [] || !before(x, s[|s| - 1]) {
      RecordCountAppend(s, [x]);
    } else {
      var init, last := s[..|s| - 1], s[|s| - 1];
      assert s == init + [last];
      assert RecordCount([last]) == |last.1|;
      RecordCountInsert(init, x, before);
      RecordCountAppend(Insert(init, x, before), [last]);
      RecordCountAppend(init, [last]);
    }
  }

  /** Sorting the projects keeps the number of records. */
  lemma {:induction false} RecordCountSorted(s: seq<ProjectRecords>, before: (ProjectRecords, ProjectRecords) -> bool)
    ensures RecordCount(SortBy(s, before)) == RecordCount(s)
  {
    if s != [] {
      var init, last := s[..|s| - 1], s[|s| - 1];
      assert s == init + [last];
      assert RecordCount([last]) == |last.1|;
      RecordCountSorted(init, before);
      RecordCountInsert(SortBy(init, before), last, before);
      RecordCountAppend(init, [last]);
    }
  }

  /** `write` hands over one row per record of its input, so the row
      counter ends at one past the number of records. */
  lemma WriteRowCount(rowOf: RowBuilder, results: seq<ProjectRecords>, rank: Info -> int, entry: bool)
    requires TableLines(rowOf, SortedProjects(results), RecordOrder(rank), 1, entry).Ok?
    ensures |TableLines(rowOf, SortedProjects(results), RecordOrder(rank), 1, entry).value| == RecordCount(results)
  {
    RecordOrderLength(rank);
    TableLinesCount(rowOf, SortedProjects(results), RecordOrder(rank), 1, entry);
    RecordCountSorted(results, ProjectBefore());
  }


  /** `lines` are rows numbered consecutively from `start`. */
  predicate Numbered(lines: seq<Line>, start: int) {
    forall i :: 0 <= i < |lines| ==> lines[i].Row? && lines[i].row == start + i
  }

  lemma NumberedAppend(a: seq<Line>, b: seq<Line>, start: int)
    requires Numbered(a, start) && Numbered(b, start + |a|)
    ensures Numbered(a + b, start)
  {
    forall i | |a| <= i < |a + b|
      ensures (a + b)[i].Row? && (a + b)[i].row == start + i
    {
      assert (a + b)[i] == b[i - |a|];
    }
  }

  /** The rows are numbered consecutively from `start`. */
  lemma {:induction false} TableLinesRows(rowOf: RowBuilder, projects: seq<ProjectRecords>, order: seq<Info> -> seq<Info>,
                                          start: int, entry: bool)
    requires TableLines(rowOf, projects, order, start, entry).Ok?
    ensures Numbered(TableLines(rowOf, projects, order, start, entry).value, start)
    decreases |projects|
  {
    if projects != [] {
      var records := order(projects[0].1);
      var first := ProjectLines(rowOf, projects[0].0, records, |records|, start, entry).value;
      ProjectLinesShape(rowOf, projects[0].0, records, |records|, start, entry);
      TableLinesRows(rowOf, projects[1..], order, start + |records|, false);
      NumberedAppend(first, TableLines(rowOf, projects[1..], order, start + |records|, false).value, start);
    }
  }

  /** Every record of every project has a row. */
  predicate AllRowsBuild(rowOf: RowBuilder, projects: seq<ProjectRecords>) {
    forall j, info :: 0 <= j < |projects| && info in projects[j].1 ==> rowOf(projects[j].0, info).Ok?
  }

  lemma AllRowsBuildFirst(rowOf: RowBuilder, projects: seq<ProjectRecords>)
    requires projects != []
    ensures AllRowsBuild(rowOf, projects) <==>
            (forall info :: info in projects[0].1 ==> rowOf(projects[0].0, info).Ok?) &&
            AllRowsBuild(rowOf, projects[1..])
  {
    assert forall j :: 1 <= j < |projects| ==> projects[j] == projects[1..][j - 1];
  }

  lemma TableLinesOkFirst(rowOf: RowBuilder, projects: seq<ProjectRecords>, order: seq<Info> -> seq<Info>,
                          start: int, entry: bool)
    requires projects != []
    ensures var records := order(projects[0].1);
            TableLines(rowOf, projects, order, start, entry).Ok? <==>
            ProjectLines(rowOf, projects[0].0, records, |records|, start, entry).Ok? &&
            TableLines(rowOf, projects[1..], order, start + |records|, false).Ok?
  {
  }

  /** A project's rows all build exactly when its records' rows do, in any
      order that keeps the same records. */
  lemma OrderedRowsBuild(rowOf: RowBuilder, project: int, infos: seq<Info>, records: seq<Info>, start: int,
                         entry: bool)
    requires forall info :: info in records <==> info in infos
    ensures ProjectLines(rowOf, project, records, |records|, start, entry).Ok? <==>
            forall info :: info in infos ==> rowOf(project, info).Ok?
  {
    ProjectLinesOk(rowOf, project, records, |records|, start, entry);
    assert forall info :: info in records <==> exists k :: 0 <= k < |records| && records[k] == info;
  }

  /** The table fails exactly when some record's row cannot be built, in
      any order of each project's records that keeps the same records. */
  lemma {:induction false} TableLinesOk(rowOf: RowBuilder, projects: seq<ProjectRecords>,
                                        order: seq<Info> -> seq<Info>, start: int, entry: bool)
    requires forall infos, info :: info in order(infos) <==> info in infos
    ensures TableLines(rowOf, projects, order, start, entry).Ok? <==> AllRowsBuild(rowOf, projects)
  {
    if projects != [] {
      var records := order(projects[0].1);
      TableLinesOkFirst(rowOf, projects, order, start, entry);
      OrderedRowsBuild(rowOf, projects[0].0, projects[0].1, records, start, entry);
      TableLinesOk(rowOf, projects[1..], order, start + |records|, false);
      AllRowsBuildFirst(rowOf, projects);
    }
  }

  /** The order `write` uses keeps the same records. */
  lemma RecordOrderMembers(rank: Info -> int)
    ensures forall infos, info :: info in RecordOrder(rank)(infos) <==> info in infos
  {
    forall infos
      ensures forall info :: info in RecordOrder(rank)(infos) <==> info in infos
    {
      SortedRecordsMembers(infos, rank);
    }
  }

  lemma AllRowsBuildMembers(rowOf: RowBuilder, projects: seq<ProjectRecords>)
    ensures AllRowsBuild(rowOf, projects) <==>
            forall x :: x in projects ==> forall info :: info in x.1 ==> rowOf(x.0, info).Ok?
  {
    assert forall x :: x in projects <==> exists j :: 0 <= j < |projects| && projects[j] == x;
  }

  /** Whether every row builds does not depend on the order of the projects. */
  lemma AllRowsBuildReordered(rowOf: RowBuilder, a: seq<ProjectRecords>, b: seq<ProjectRecords>)
    requires multiset(a) == multiset(b)
    ensures AllRowsBuild(rowOf, a) <==> AllRowsBuild(rowOf, b)
  {
    AllRowsBuildMembers(rowOf, a);
    AllRowsBuildMembers(rowOf, b);
    forall x | x in a
      ensures x in b
    {
      assert x in multiset(a);
    }
    forall x | x in b
      ensures x in a
    {
      assert x in multiset(b);
    }
  }

  /** `write` gets past its table exactly when every record of every
      project has a row. */
  lemma WriteSucceeds(rowOf: RowBuilder, results: seq<ProjectRecords>, rank: Info -> int, entry: bool)
    ensures TableLines(rowOf, SortedProjects(results), RecordOrder(rank), 1, entry).Ok? <==>
            AllRowsBuild(rowOf, results)
  {
    RecordOrderMembers(rank);
    TableLinesOk(rowOf, SortedProjects(results), RecordOrder(rank), 1, entry);
    ProjectsAscending(results);
    AllRowsBuildReordered(rowOf, SortedProjects(results), results);
  }

  /** `prefix` before the lines of `r`, or `r`'s error. */
  function Prepend(prefix: seq<Line>, r: Result<seq<Line>>): Result<seq<Line>> {
    if r.Err? then r else Ok(prefix + r.value)
  }

  /** What follows `prefix` once `added` is appended after `written`. */
  lemma SuffixAfterPrefix<T>(prefix: seq<T>, written: seq<T>, added: seq<T>)
    requires prefix <= written
    ensures (written + added)[|prefix|..] == written[|prefix|..] + added
  {
  }

  lemma AppendAssoc<T>(a: seq<T>, b: seq<T>, c: seq<T>)
    ensures a + b + c == a + (b + c)
  {
  }

  lemma PrependNothing(r: Result<seq<Line>>)
    ensures Prepend([], r) == r
  {
    if r.Ok? {
      assert [] + r.value == r.value;
    }
  }

  lemma PrependPrepend(a: seq<Line>, b: seq<Line>, r: Result<seq<Line>>)
    ensures Prepend(a, Prepend(b, r)) == Prepend(a + b, r)
  {
    if r.Ok? {
      assert a + (b + r.value) == a + b + r.value;
    }
  }

  /** The first project's rows come before the others', whose rows start
      after them with the flag cleared. */
  lemma TableLinesStep(rowOf: RowBuilder, projects: seq<ProjectRecords>, order: seq<Info> -> seq<Info>, start: int, entry: bool,
                       records: seq<Info>, lines: seq<Line>, others: seq<ProjectRecords>, next: int)
    requires projects != [] && records == order(projects[0].1)
    requires ProjectLines(rowOf, projects[0].0, records, |records|, start, entry) == Ok(lines)
    requires others == projects[1..] && next == start + |records|
    ensures TableLines(rowOf, projects, order, start, entry) == Prepend(lines, TableLines(rowOf, others, order, next, false))
  {
  }

  /** A project whose rows cannot be built stops the table. */
  lemma TableLinesStop(rowOf: RowBuilder, projects: seq<ProjectRecords>, order: seq<Info> -> seq<Info>, start: int, entry: bool,
                       records: seq<Info>)
    requires projects != [] && records == order(projects[0].1)
    requires ProjectLines(rowOf, projects[0].0, records, |records|, start, entry).Err?
    ensures TableLines(rowOf, projects, order, start, entry).Err?
  {
  }

  /** One project more of the table is written: what is left of the table
      starts after that project's rows, at the row after them. */
  lemma TableAdvance(rowOf: RowBuilder, projects: seq<ProjectRecords>, order: seq<Info> -> seq<Info>, j: int,
                     start: int, entry: bool, records: seq<Info>, chunk: seq<Line>,
                     done: seq<Line>, total: Result<seq<Line>>, after: seq<Line>, next: int, nextRow: int)
    requires 0 <= j < |projects| && records == order(projects[j].1)
    requires ProjectLines(rowOf, projects[j].0, records, |records|, start, entry) == Ok(chunk)
    requires total == Prepend(done, TableLines(rowOf, projects[j..], order, start, entry))
    requires after == done + chunk && next == j + 1 && nextRow == start + |records|
    ensures total == Prepend(after, TableLines(rowOf, projects[next..], order, nextRow, false))
  {
    var remaining := projects[j..];
    assert remaining[0] == projects[j] && remaining[1..] == projects[next..];
    TableLinesStep(rowOf, remaining, order, start, entry, records, chunk, projects[next..], nextRow);
    PrependPrepend(done, chunk, TableLines(rowOf, projects[next..], order, nextRow, false));
  }

  /** A project whose rows cannot be built fails the whole table. */
  lemma TableAbort(rowOf: RowBuilder, projects: seq<ProjectRecords>, order: seq<Info> -> seq<Info>, j: int,
                   start: int, entry: bool, records: seq<Info>, done: seq<Line>, total: Result<seq<Line>>)
    requires 0 <= j < |projects| && records == order(projects[j].1)
    requires ProjectLines(rowOf, projects[j].0, records, |records|, start, entry).Err?
    requires total == Prepend(done, TableLines(rowOf, projects[j..], order, start, entry))
    ensures total.Err?
  {
    var remaining := projects[j..];
    assert remaining[0] == projects[j];
    TableLinesStop(rowOf, remaining, order, start, entry, records);
  }

  // ---------------------------------------------------------------- the writer

  /** `SistrResultsWriter` with what it has handed to its back end: the
      header and the rows in `lines`, and, for the Excel writer, the ranges
      its `_formatting` colours by QC status. */
  class ResultsWriter {
    const layout: Layout
    const iridaUrl: string
    const appname: string
    const username: string
    /** The row `write` builds for a record of a project: `_get_row_list`
        when it has results, `_get_no_results_row_list` otherwise. */
    const rowOf: RowBuilder
    var row: int
    var endOfProject: bool
    var lines: seq<Line>
    var qcRanges: seq<string>

    constructor(layout: Layout, iridaUrl: string, appname: string, username: string)
      ensures this.layout == layout && this.iridaUrl == iridaUrl
      ensures this.appname == appname && this.username == username
      ensures this.rowOf == RowOf(layout, iridaUrl)
      ensures row == 0 && !endOfProject && lines == [] && qcRanges == []
    {
      this.rowOf := RowOf(layout, iridaUrl);
      this.layout := layout;
      this.iridaUrl := iridaUrl;
      this.appname := appname;
      this.username := username;
      row := 0;
      endOfProject := false;
      lines := [];
      qcRanges := [];
    }

    /** The inner loop of `write`: the rows of one project's sorted
        records, from the current row on, the last one flagged. It stops at
        the first record whose row cannot be built. */
    method WriteProject(project: int, records: seq<Info>) returns (ok: bool)
      modifies this
      ensures var r := ProjectLines(rowOf, project, records, |records|, old(row), old(endOfProject));
              ok <==> r.Ok?
      ensures ok ==>
                && lines == old(lines) + ProjectLines(rowOf, project, records, |records|, old(row),
                                                      old(endOfProject)).value
                && row == old(row) + |records| && |lines| == |old(lines)| + |records|
                && endOfProject == (old(endOfProject) || records != [])
      ensures !ok ==>
                exists k :: 0 <= k < |records| && rowOf(project, records[k]).Err?
                  && (forall j :: 0 <= j < k ==> rowOf(project, records[j]).Ok?)
                  && old(lines) <= lines
                  && ProjectLines(rowOf, project, records[..k], |records|, old(row), old(endOfProject))
                       == Ok(lines[|old(lines)|..])
                  && row == old(row) + k && endOfProject == (old(endOfProject) || k == |records| - 1)
      ensures qcRanges == old(qcRanges)
    {
      var arrival := endOfProject;
      var start := row;
      var mark := lines;
      var k := 0;
      assert records[..0] == [] && lines[|mark|..] == [];
      while k < |records|
        invariant 0 <= k <= |records|
        invariant mark <= lines && |lines| == |mark| + k && row == start + k
        invariant endOfProject == (arrival || (k > 0 && k == |records|))
        invariant qcRanges == old(qcRanges)
        invariant ProjectLines(rowOf, project, records[..k], |records|, start, arrival) == Ok(lines[|mark|..])
      {
        if k == |records| - 1 {
          endOfProject := true;
        }
        var cells := rowOf(project, records[k]);
        if cells.Err? {
          ProjectLinesOk(rowOf, project, records, |records|, start, arrival);
          ProjectLinesOk(rowOf, project, records[..k], |records|, start, arrival);
          assert forall j :: 0 <= j < k ==> records[..k][j] == records[j];
          return false;
        }
        ProjectLinesSnoc(rowOf, project, records, k, |records|, start, arrival, lines[|mark|..], cells.value);
        assert (lines + [Row(row, endOfProject, cells.value)])[|mark|..] == lines[|mark|..] + [Row(row, endOfProject, cells.value)];
        lines := lines + [Row(row, endOfProject, cells.value)];
        row := row + 1;
        k := k + 1;
      }
      assert records[..k] == records;
      ok := true;
    }

    /** The loop of `write` over the projects, in the order given, each
        project's records in the order `order` puts them. */
    method WriteTable(projects: seq<ProjectRecords>, order: seq<Info> -> seq<Info>) returns (ok: bool)
      modifies this
      ensures ok <==> TableLines(rowOf, projects, order, old(row), old(endOfProject)).Ok?
      ensures ok ==>
                var table := TableLines(rowOf, projects, order, old(row), old(endOfProject)).value;
                && lines == old(lines) + table
                && row == old(row) + |table|
                && endOfProject == (old(endOfProject) && projects == [])
      ensures !ok ==> old(lines) <= lines
      ensures qcRanges == old(qcRanges)
    {
      ghost var entry, first_row := endOfProject, row;
      ghost var total := TableLines(rowOf, projects, order, row, endOfProject);
      ghost var done: seq<Line> := [];
      var prefix := lines;
      assert projects[0..] == projects && lines == prefix + done;
      PrependNothing(total);
      var j := 0;
      while j < |projects|
        invariant 0 <= j <= |projects|
        invariant lines == prefix + done && row == first_row + |done|
        invariant endOfProject == (entry && j == 0)
        invariant qcRanges == old(qcRanges)
        invariant total == Prepend(done, TableLines(rowOf, projects[j..], order, row, endOfProject))
      {
        var records := order(projects[j].1);
        ghost var chunk := ProjectLines(rowOf, projects[j].0, records, |records|, row, endOfProject);
        ghost var start, arrival := row, endOfProject;
        var projectOk := WriteProject(projects[j].0, records);
        if !projectOk {
          TableAbort(rowOf, projects, order, j, start, arrival, records, done, total);
          return false;
        }
        ghost var before := done;
        AppendAssoc(prefix, done, chunk.value);
        done := done + chunk.value;
        endOfProject := false;
        j := j + 1;
        TableAdvance(rowOf, projects, order, j - 1, start, arrival, records, chunk.value, before, total, done, j, row);
      }
      assert projects[j..] == [] && done + [] == done;
      ok := true;
    }

    /** `_formatting` of the spreadsheet writer: the QC colour formats go
        on the QC status column from row 1 to the current row; the text
        writer formats nothing. */
    method Formatting()
      modifies this
      ensures qcRanges == old(qcRanges) + (if layout == Full then [QcRange(row)] else [])
      ensures lines == old(lines) && row == old(row) && endOfProject == old(endOfProject)
    {
      if layout == Full {
        QcRangeIsQcColumn(row);
        var range := ToRangeRow(QcStatusColumn, 1, row);
        qcRanges := qcRanges + [range.value];
      }
    }

    /** `write`: the header at row 0, the table from row 1, the QC colour
        range of the full layout, then the footer row after the table. */
    method Write(results: seq<ProjectRecords>, rank: Info -> int, version: string, now: string) returns (ok: bool)
      modifies this
      ensures var table := TableLines(rowOf, SortedProjects(results), RecordOrder(rank), 1, old(endOfProject));
              ok <==> table.Ok?
      ensures ok ==>
                var table := TableLines(rowOf, SortedProjects(results), RecordOrder(rank), 1, old(endOfProject)).value;
                var footer := FooterText(appname, version, iridaUrl, username, now);
                && row == 1 + |table|
                && endOfProject == (old(endOfProject) && results == [])
                && lines == old(lines) + [Header(0, HeaderList(layout))] + table + [Row(row, endOfProject, [Str(footer)])]
                && qcRanges == old(qcRanges) + (if layout == Full then [QcRange(row)] else [])
      ensures !ok ==> old(lines) + [Header(0, HeaderList(layout))] <= lines && qcRanges == old(qcRanges)
    {
      row := 0;
      lines := lines + [Header(row, HeaderList(layout))];
      row := 1;
      var projects := SortedProjects(results);
      assert |projects| == |results|;
      ok := WriteTable(projects, RecordOrder(rank));
      if !ok {
        return;
      }
      Formatting();
      lines := lines + [Row(row, endOfProject, [Str(FooterText(appname, version, iridaUrl, username, now))])];
    }
  }
}
