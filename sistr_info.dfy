/** `SampleSistrInfo`: the record the core keeps per sample and its read
    accessors. The record is the `sistr_info` dictionary built by the API
    layer; a key the dictionary lacks is `None` here, and an accessor that
    would raise KeyError or IndexError on it returns `Err`. */
module SistrInfo {
  import opened Outcome
  import opened Resources
  import Text

  /** What the `paired_files` key holds: the paired-input files of a
      submission, or, for a sequencing pair without a SISTR analysis, the
      pair object itself. */
  datatype PairedFiles = FileList(files: seq<SeqObject>) | PairObject(pair: SeqObject)

  /** The `sistr_info` dictionary. `predictions` and `submission` are
      `None` when the dictionary has no such key. */
  datatype Info = Info(
    hasResults: bool,
    sample: Sample,
    pairedFiles: PairedFiles,
    predictions: Option<seq<Prediction>>,
    submission: Option<Submission>)

  function HasSistrResults(info: Info): bool {
    info.hasResults
  }

  function SampleName(info: Info): string {
    info.sample.sampleName
  }

  function SampleId(info: Info): string {
    info.sample.identifier
  }

  /** Milliseconds; the source divides by 1000 as a float. */
  function SampleCreatedMillis(info: Info): int {
    info.sample.createdDate
  }

  /** `_get_sistr`: the first prediction of the record. */
  function Sistr(info: Info): (r: Result<Prediction>)
    ensures r.Ok? <==> info.predictions.Some? && |info.predictions.value| > 0
    ensures r.Ok? ==> r.value == info.predictions.value[0]
  {
    match info.predictions
    case None => Err(KeyError("sistr_predictions"))
    case Some(ps) => if ps == [] then Err(IndexError) else Ok(ps[0])
  }

  /** A prediction accessor: the field `f` of the first prediction. Every
      `get_<field>` of the source is `Field` with that field's projection. */
  function Field<T>(info: Info, f: Prediction -> T): (r: Result<T>)
    ensures r.Ok? <==> info.predictions.Some? && |info.predictions.value| > 0
    ensures r.Ok? ==> r.value == f(info.predictions.value[0])
  {
    var p :- Sistr(info);
    Ok(f(p))
  }

  function Serovar(info: Info): Result<string> { Field(info, (p: Prediction) => p.serovar) }
  function SerovarAntigen(info: Info): Result<string> { Field(info, (p: Prediction) => p.serovarAntigen) }
  function Serogroup(info: Info): Result<string> { Field(info, (p: Prediction) => p.serogroup) }
  function H1(info: Info): Result<string> { Field(info, (p: Prediction) => p.h1) }
  function H2(info: Info): Result<string> { Field(info, (p: Prediction) => p.h2) }
  function OAntigen(info: Info): Result<string> { Field(info, (p: Prediction) => p.oAntigen) }
  function QcStatus(info: Info): Result<string> { Field(info, (p: Prediction) => p.qcStatus) }
  function QcMessages(info: Info): Result<string> { Field(info, (p: Prediction) => p.qcMessages) }
  function CgmlstSubspecies(info: Info): Result<string> { Field(info, (p: Prediction) => p.cgmlstSubspecies) }
  function CgmlstGenome(info: Info): Result<string> { Field(info, (p: Prediction) => p.cgmlstGenomeMatch) }
  function CgmlstMatchingAlleles(info: Info): Result<int> { Field(info, (p: Prediction) => p.cgmlstMatchingAlleles) }
  function CgmlstSequenceType(info: Info): Result<string> { Field(info, (p: Prediction) => p.cgmlstSequenceType) }
  function MashSubspecies(info: Info): Result<string> { Field(info, (p: Prediction) => p.mashSubspecies) }
  function MashSerovar(info: Info): Result<string> { Field(info, (p: Prediction) => p.mashSerovar) }
  function MashGenome(info: Info): Result<string> { Field(info, (p: Prediction) => p.mashGenome) }
  function MashDistance(info: Info): Result<real> { Field(info, (p: Prediction) => p.mashDistance) }

  /** `get_serovar_cgmlst`: a null cgMLST serovar is shown as the text "None". */
  function SerovarCgmlst(info: Info): (r: Result<string>)
    ensures r.Ok? <==> Sistr(info).Ok?
    ensures r.Ok? && Sistr(info).value.serovarCgmlst.None? ==> r.value == "None"
    ensures r.Ok? && Sistr(info).value.serovarCgmlst.Some? ==> r.value == Sistr(info).value.serovarCgmlst.value
  {
    var p :- Sistr(info);
    match p.serovarCgmlst
    case None => Ok("None")
    case Some(s) => Ok(s)
  }

  /** Size of the cgMLST scheme the matching-allele count is out of. */
  const CgmlstLoci := 330

  /** `get_cgmlst_matching_total_alleles`: "<matching>/330". The text before
      the "/330" reads back as the matching-allele count. */
  function CgmlstMatchingTotalAlleles(info: Info): (r: Result<string>)
    ensures r.Ok? <==> Sistr(info).Ok?
    ensures r.Ok? ==> |r.value| > 4 && r.value[|r.value| - 4..] == "/330"
    ensures r.Ok? ==> Text.ParseInt(r.value[..|r.value| - 4]) == Some(Sistr(info).value.cgmlstMatchingAlleles)
  {
    var n :- CgmlstMatchingAlleles(info);
    var count := Text.IntToString(n);
    var s := count + "/" + Text.IntToString(CgmlstLoci);
    assert Text.IntToString(CgmlstLoci) == "330";
    assert s[..|s| - 4] == count;
    Text.IntToStringRoundTrip(n);
    Ok(s)
  }

  function SubmissionIdentifier(info: Info): (r: Result<string>)
    ensures r.Ok? <==> info.submission.Some?
    ensures r.Ok? ==> r.value == info.submission.value.identifier
  {
    match info.submission
    case None => Err(KeyError("submission"))
    case Some(s) => Ok(s.identifier)
  }

  /** Milliseconds; the source divides by 1000 as a float. */
  function SubmissionCreatedMillis(info: Info): (r: Result<int>)
    ensures r.Ok? <==> info.submission.Some?
    ensures r.Ok? ==> r.value == info.submission.value.createdDate
  {
    match info.submission
    case None => Err(KeyError("submission"))
    case Some(s) => Ok(s.createdDate)
  }

  /** The base URL without one trailing '/'. */
  function WithoutTrailingSlash(base: string): string {
    if base != [] && base[|base| - 1] == '/' then base[..|base| - 1] else base
  }

  /** `get_submission_url`: the analysis page of the submission under the
      IRIDA base URL, joined with a single '/' whether or not the base URL
      ends in one. */
  function SubmissionUrl(info: Info, base: string): (r: Result<string>)
    ensures r.Ok? <==> info.submission.Some?
    ensures r.Ok? ==> r.value == WithoutTrailingSlash(base) + "/analysis/" + info.submission.value.identifier
    ensures r.Ok? ==> base <= r.value
    ensures r.Ok? ==> var id := info.submission.value.identifier;
                      |id| <= |r.value| && r.value[|r.value| - |id|..] == id
  {
    var id :- SubmissionIdentifier(info);
    var url := if base != [] && base[|base| - 1] == '/' then base + "analysis/" else base + "/analysis/";
    assert base != [] && base[|base| - 1] == '/' ==> base == base[..|base| - 1] + "/";
    Ok(url + id)
  }

  /** `get_paired_id`: the identifier of the first paired-input file. A
      record holding the pair object itself has no element 0. */
  function PairedId(info: Info): (r: Result<string>)
    ensures r.Ok? <==> info.pairedFiles.FileList? && |info.pairedFiles.files| > 0
    ensures r.Ok? ==> r.value == info.pairedFiles.files[0].identifier
  {
    match info.pairedFiles
    case PairObject(_) => Err(KeyError("0"))
    case FileList(files) => if files == [] then Err(IndexError) else Ok(files[0].identifier)
  }
}
