/** The JSON resources of the IRIDA REST API as the core reads them. Only
    the keys the core looks at are kept; a key whose value may be JSON
    `null` is an `Option`. */
module Resources {
  import opened Outcome

  /** One entry of a HAL-style `links` list. */
  datatype Link = Link(rel: string, href: Option<string>)

  datatype Project = Project(identifier: string)

  /** A sample; `createdDate` is in milliseconds since the epoch. */
  datatype Sample = Sample(identifier: string, sampleName: string, createdDate: int)

  /** A sequencing object: an entry of a sample's `pairs` list, or a file of
      a submission's paired input. */
  datatype SeqObject = SeqObject(identifier: string, links: seq<Link>)

  /** An analysis submission; `createdDate` is in milliseconds since the epoch. */
  datatype Submission = Submission(identifier: string, analysisState: string, createdDate: int, links: seq<Link>)

  /** One element of the `sistr_predictions` list of a SISTR prediction file. */
  datatype Prediction = Prediction(
    serovar: string,
    serovarAntigen: string,
    serovarCgmlst: Option<string>,
    serogroup: string,
    h1: string,
    h2: string,
    oAntigen: string,
    qcStatus: string,
    qcMessages: string,
    cgmlstSubspecies: string,
    cgmlstGenomeMatch: string,
    cgmlstMatchingAlleles: int,
    cgmlstSequenceType: string,
    mashSubspecies: string,
    mashSerovar: string,
    mashGenome: string,
    mashDistance: real)
}
