/** `IridaSistrWorkflow`: the fixed tables between SISTR workflow versions
    and the IRIDA workflow identifiers, and lookups in them. Python's `None`
    is a key of both tables and is modelled as `None`. */
module Workflow {
  import opened Outcome
  import opened Lists

  /** A Python dict: its entries in insertion order, keys distinct. */
  datatype Dict = Empty | Entry(key: Option<string>, value: Option<string>, rest: Dict)

  const Id01 := "e559af58-a560-4bbd-997e-808bfbe026e2"
  const Id02 := "e8f9cc61-3264-48c6-81d9-02d9e84bccc7"
  const Id03 := "92ecf046-ee09-4271-b849-7a82625d6b60"

  /** `WORKFLOW_IDS`: version to workflow id. */
  const WorkflowIds: Dict :=
    Entry(Some("0.1"), Some(Id01),
    Entry(Some("0.1.0"), Some(Id01),
    Entry(Some("0.2"), Some(Id02),
    Entry(Some("0.2.0"), Some(Id02),
    Entry(Some("0.3"), Some(Id03),
    Entry(Some("0.3.0"), Some(Id03),
    Entry(None, None,
    Empty)))))))

  /** `WORKFLOW_VERSIONS`: workflow id to version. */
  const WorkflowVersions: Dict :=
    Entry(Some(Id01), Some("0.1"),
    Entry(Some(Id02), Some("0.2"),
    Entry(Some(Id03), Some("0.3"),
    Entry(None, None,
    Empty))))

  function Keys(d: Dict): set<Option<string>> {
    match d
    case Empty => {}
    case Entry(k, _, rest) => {k} + Keys(rest)
  }

  function KeyText(key: Option<string>): string {
    if key.Some? then key.value else "None"
  }

  /** `d[key]`: the value stored under `key`, or a KeyError. */
  function Lookup(d: Dict, key: Option<string>): (r: Result<Option<string>>)
    ensures r.Ok? <==> key in Keys(d)
    ensures r.Err? ==> r.error == KeyError(KeyText(key))
  {
    match d
    case Empty => Err(KeyError(KeyText(key)))
    case Entry(k, v, rest) => if k == key then Ok(v) else Lookup(rest, key)
  }

  function WorkflowIdToVersion(workflowId: Option<string>): Result<Option<string>> {
    Lookup(WorkflowVersions, workflowId)
  }

  function WorkflowVersionToId(version: Option<string>): Result<Option<string>> {
    Lookup(WorkflowIds, version)
  }

  /** A version cut before its second '.', so "0.2.0" becomes "0.2". */
  function TwoPart(v: string): string {
    TwoPartAfter(v, 0)
  }

  function TwoPartAfter(v: string, dots: nat): string
    decreases |v|
  {
    if v == [] || (v[0] == '.' && dots >= 1) then []
    else [v[0]] + TwoPartAfter(v[1..], if v[0] == '.' then dots + 1 else dots)
  }

  function ShortForm(version: Option<string>): Option<string> {
    if version.Some? then Some(TwoPart(version.value)) else None
  }

  /** `list(d.values())`: the values in insertion order. */
  function Values(d: Dict): seq<Option<string>> {
    match d
    case Empty => []
    case Entry(_, v, rest) => [v] + Values(rest)
  }

  /** `all_workflow_versions`: the values of `WORKFLOW_VERSIONS` in order, minus `None`. */
  function AllWorkflowVersions(): (vs: seq<Option<string>>)
    ensures vs == [Some("0.1"), Some("0.2"), Some("0.3")]
    ensures None !in vs
  {
    var values := Values(WorkflowVersions);
    assert values == [Some("0.1"), Some("0.2"), Some("0.3"), None];
    assert IndexOf(values, None) == 3;
    RemoveFirst(values, None)
  }

  /** The known versions: the keys of `WORKFLOW_IDS` other than `None`. */
  predicate KnownVersion(v: string) {
    v in ["0.1", "0.1.0", "0.2", "0.2.0", "0.3", "0.3.0"]
  }

  /** The known ids: the keys of `WORKFLOW_VERSIONS` other than `None`. */
  predicate KnownId(id: string) {
    id in [Id01, Id02, Id03]
  }

  lemma VersionsToIds()
    ensures WorkflowVersionToId(Some("0.1")) == Ok(Some(Id01))
    ensures WorkflowVersionToId(Some("0.1.0")) == Ok(Some(Id01))
    ensures WorkflowVersionToId(Some("0.2")) == Ok(Some(Id02))
    ensures WorkflowVersionToId(Some("0.2.0")) == Ok(Some(Id02))
    ensures WorkflowVersionToId(Some("0.3")) == Ok(Some(Id03))
    ensures WorkflowVersionToId(Some("0.3.0")) == Ok(Some(Id03))
    ensures WorkflowVersionToId(None) == Ok(None)
  {
  }

  lemma IdsToVersions()
    ensures WorkflowIdToVersion(Some(Id01)) == Ok(Some("0.1"))
    ensures WorkflowIdToVersion(Some(Id02)) == Ok(Some("0.2"))
    ensures WorkflowIdToVersion(Some(Id03)) == Ok(Some("0.3"))
    ensures WorkflowIdToVersion(None) == Ok(None)
  {
  }

  /** Exactly the known versions and `None` resolve; any other version is a KeyError. */
  lemma VersionLookup(version: Option<string>)
    ensures WorkflowVersionToId(version).Ok? <==> version.None? || KnownVersion(version.value)
  {
  }

  /** Exactly the known ids and `None` resolve; any other id is a KeyError. */
  lemma IdLookup(workflowId: Option<string>)
    ensures WorkflowIdToVersion(workflowId).Ok? <==> workflowId.None? || KnownId(workflowId.value)
  {
  }

  /** A version of two parts is its own short form; a third part is dropped. */
  lemma TwoPartOfParts(a: char, b: char, c: char)
    requires a != '.' && b != '.' && c != '.'
    ensures TwoPart([a, '.', b]) == [a, '.', b]
    ensures TwoPart([a, '.', b, '.', c]) == [a, '.', b]
  {
    var two, three := [a, '.', b], [a, '.', b, '.', c];
    assert two[1..] == ['.', b] && ['.', b][1..] == [b] && [b][1..] == [];
    assert TwoPartAfter([b], 1) == [b];
    assert TwoPartAfter(['.', b], 0) == ['.', b];
    assert three[1..] == ['.', b, '.', c] && ['.', b, '.', c][1..] == [b, '.', c] && [b, '.', c][1..] == ['.', c];
    assert TwoPartAfter(['.', c], 1) == [];
    assert TwoPartAfter([b, '.', c], 1) == [b];
    assert TwoPartAfter(['.', b, '.', c], 0) == ['.', b];
  }

  lemma ShortForms()
    ensures TwoPart("0.1") == "0.1" && TwoPart("0.1.0") == "0.1"
    ensures TwoPart("0.2") == "0.2" && TwoPart("0.2.0") == "0.2"
    ensures TwoPart("0.3") == "0.3" && TwoPart("0.3.0") == "0.3"
  {
    TwoPartOfParts('0', '1', '0');
    TwoPartOfParts('0', '2', '0');
    TwoPartOfParts('0', '3', '0');
  }

  /** Every id that has a version maps back to itself. */
  lemma IdRoundTrip(workflowId: Option<string>)
    requires WorkflowIdToVersion(workflowId).Ok?
    ensures WorkflowVersionToId(WorkflowIdToVersion(workflowId).value) == Ok(workflowId)
  {
    IdLookup(workflowId);
    IdsToVersions();
    VersionsToIds();
  }

  /** Every known version maps to an id whose version is its two-part short form. */
  lemma VersionRoundTrip(version: Option<string>)
    requires WorkflowVersionToId(version).Ok?
    ensures WorkflowIdToVersion(WorkflowVersionToId(version).value) == Ok(ShortForm(version))
  {
    VersionLookup(version);
    IdsToVersions();
    VersionsToIds();
    ShortForms();
    if version == Some("0.1") || version == Some("0.1.0") {
      assert ShortForm(version) == Some("0.1");
    } else if version == Some("0.2") || version == Some("0.2.0") {
      assert ShortForm(version) == Some("0.2");
    } else if version == Some("0.3") || version == Some("0.3.0") {
      assert ShortForm(version) == Some("0.3");
    }
  }

  /** Two versions share an id exactly when they share their short form:
      "0.2" and "0.2.0" are aliases, "0.1", "0.2" and "0.3" are told apart. */
  lemma SameIdIffSameShortForm(v1: Option<string>, v2: Option<string>)
    requires WorkflowVersionToId(v1).Ok? && WorkflowVersionToId(v2).Ok?
    ensures WorkflowVersionToId(v1) == WorkflowVersionToId(v2) <==> ShortForm(v1) == ShortForm(v2)
  {
    VersionRoundTrip(v1);
    VersionRoundTrip(v2);
    var id1, id2 := WorkflowVersionToId(v1).value, WorkflowVersionToId(v2).value;
    if ShortForm(v1) == ShortForm(v2) {
      // both ids have the same version, and a version names one id
      IdRoundTrip(id1);
      IdRoundTrip(id2);
    }
  }
}
