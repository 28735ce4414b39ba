/** `IridaSistrResults.get_sistr_results`: the records of one project,
    indexed by sample id, with the user's own submissions folded in. A user
    record that has results never displaces a record already kept for its
    sample; any other user record is stored under its sample id. */
module SistrResults {
  import opened Outcome
  import opened SistrInfo
  import opened IridaApi

  /** The sample ids of a list of records. */
  function SampleIds(results: seq<Info>): set<string> {
    set info | info in results :: SampleId(info)
  }

  /** Every record is stored under its own sample id. */
  predicate KeyedBySample(m: map<string, Info>) {
    forall id :: id in m ==> SampleId(m[id]) == id
  }

  /** The first loop: each project record stored under its sample id, a
      later record for the same sample replacing an earlier one. */
  function IndexBySample(results: seq<Info>): map<string, Info> {
    if results == [] then map[]
    else
      var last := results[|results| - 1];
      IndexBySample(results[..|results| - 1])[SampleId(last) := last]
  }

  /** The first loop keys the map by exactly the records' sample ids, each
      record under its own id. */
  lemma {:induction false} IndexBySampleKeys(results: seq<Info>)
    ensures IndexBySample(results).Keys == SampleIds(results)
    ensures KeyedBySample(IndexBySample(results))
  {
    if results != [] {
      var init := results[..|results| - 1];
      var last := results[|results| - 1];
      IndexBySampleKeys(init);
      assert results == init + [last];
      assert SampleIds(results) == SampleIds(init) + {SampleId(last)};
    }
  }

  /** One step of the second loop: a record with results for a sample that
      is already kept is refused, any other record is stored. */
  function Admit(m: map<string, Info>, info: Info): (m': map<string, Info>)
    ensures m'.Keys == m.Keys + {SampleId(info)}
    ensures forall id :: id in m && id != SampleId(info) ==> m'[id] == m[id]
    ensures SampleId(info) in m && HasSistrResults(info) ==> m' == m
    ensures !(SampleId(info) in m && HasSistrResults(info)) ==> m'[SampleId(info)] == info
    ensures KeyedBySample(m) ==> KeyedBySample(m')
  {
    if SampleId(info) in m && HasSistrResults(info) then m else m[SampleId(info) := info]
  }

  /** The second loop: the user records admitted one after the other. */
  function FoldUser(m: map<string, Info>, results: seq<Info>): map<string, Info> {
    if results == [] then m
    else Admit(FoldUser(m, results[..|results| - 1]), results[|results| - 1])
  }

  /** The second loop adds exactly the user records' sample ids as keys, and
      keeps every record under its own id. */
  lemma {:induction false} FoldUserKeys(m: map<string, Info>, results: seq<Info>)
    ensures FoldUser(m, results).Keys == m.Keys + SampleIds(results)
    ensures KeyedBySample(m) ==> KeyedBySample(FoldUser(m, results))
  {
    if results != [] {
      var init := results[..|results| - 1];
      var last := results[|results| - 1];
      FoldUserKeys(m, init);
      assert results == init + [last];
      assert SampleIds(results) == SampleIds(init) + {SampleId(last)};
    }
  }

  /** The map built from the project's records and the user's records. */
  function Reconciled(projectResults: seq<Info>, userResults: seq<Info>): map<string, Info> {
    FoldUser(IndexBySample(projectResults), userResults)
  }

  /** `get_sistr_results` as a value; a failing request fails it, the
      project's first. */
  function SistrResults(lims: Lims, project: string): Result<map<string, Info>> {
    var projectResults :- ProjectResults(lims, project);
    var userResults :- UserResults(lims);
    Ok(Reconciled(projectResults, userResults))
  }

  // ---------------------------------------------------------------- the loops of the source

  lemma IndexStep(results: seq<Info>, i: nat)
    requires i < |results|
    ensures IndexBySample(results[..i + 1]) == IndexBySample(results[..i])[SampleId(results[i]) := results[i]]
  {
    assert results[..i + 1][..i] == results[..i];
  }

  lemma FoldStep(m: map<string, Info>, results: seq<Info>, i: nat)
    requires i < |results|
    ensures FoldUser(m, results[..i + 1]) == Admit(FoldUser(m, results[..i]), results[i])
  {
    assert results[..i + 1][..i] == results[..i];
  }

  method GetSistrResults(lims: Lims, project: string) returns (r: Result<map<string, Info>>)
    ensures r == SistrResults(lims, project)
  {
    var sistrResults: map<string, Info> := map[];
    var projectResults := GetSistrResultsForProject(lims, project);
    if projectResults.Err? {
      return Err(projectResults.error);
    }
    var results := projectResults.value;
    for i := 0 to |results|
      invariant sistrResults == IndexBySample(results[..i])
    {
      IndexStep(results, i);
      var result := results[i];
      sistrResults := sistrResults[SampleId(result) := result];
    }
    assert results[..|results|] == results;

    var userResults := GetSistrSubmissionsForUser(lims);
    if userResults.Err? {
      return Err(userResults.error);
    }
    var users := userResults.value;
    for i := 0 to |users|
      invariant sistrResults == FoldUser(IndexBySample(results), users[..i])
    {
      FoldStep(IndexBySample(results), users, i);
      var result := users[i];
      var sampleId := SampleId(result);
      if sampleId in sistrResults && HasSistrResults(result) {
        // already has SISTR results, will not update
      } else {
        sistrResults := sistrResults[sampleId := result];
      }
    }
    assert users[..|users|] == users;
    assert sistrResults == Reconciled(results, users);
    r := Ok(sistrResults);
  }

  // ---------------------------------------------------------------- properties

  /** The keys of the result are exactly the sample ids of the project's
      and the user's records, and each record sits under its own id. */
  lemma ReconciledKeys(projectResults: seq<Info>, userResults: seq<Info>)
    ensures Reconciled(projectResults, userResults).Keys == SampleIds(projectResults) + SampleIds(userResults)
    ensures KeyedBySample(Reconciled(projectResults, userResults))
  {
    IndexBySampleKeys(projectResults);
    FoldUserKeys(IndexBySample(projectResults), userResults);
  }

  /** A sample's project record that is the last one for that sample is the
      one the first loop keeps. */
  lemma {:induction false} LaterProjectRecordWins(results: seq<Info>, i: nat)
    requires i < |results|
    requires forall j :: i < j < |results| ==> SampleId(results[j]) != SampleId(results[i])
    ensures var id := SampleId(results[i]);
            id in IndexBySample(results) && IndexBySample(results)[id] == results[i]
  {
    if i < |results| - 1 {
      var init := results[..|results| - 1];
      LaterProjectRecordWins(init, i);
    }
  }

  /** The user records never remove a key. */
  lemma KeysKept(m: map<string, Info>, userResults: seq<Info>)
    ensures m.Keys <= FoldUser(m, userResults).Keys
  {
    FoldUserKeys(m, userResults);
  }

  /** The one-step rule, case by case: a record with results for a sample
      that is kept already leaves the map as it is; a record for a new
      sample is inserted; a record without results replaces the entry. */
  lemma AdmitCases(m: map<string, Info>, info: Info)
    ensures SampleId(info) in m && HasSistrResults(info) ==> Admit(m, info) == m
    ensures SampleId(info) !in m ==> Admit(m, info) == m[SampleId(info) := info]
    ensures !HasSistrResults(info) ==> Admit(m, info) == m[SampleId(info) := info]
  {
  }

  /** A user record for any other sample leaves an entry alone. */
  lemma {:induction false} OtherSamplesUntouched(m: map<string, Info>, userResults: seq<Info>, id: string)
    requires id in m
    requires forall j :: 0 <= j < |userResults| ==> SampleId(userResults[j]) != id
    ensures id in FoldUser(m, userResults) && FoldUser(m, userResults)[id] == m[id]
  {
    if userResults != [] {
      OtherSamplesUntouched(m, userResults[..|userResults| - 1], id);
    }
  }

  /** Once a sample is kept, later user records with results for it change
      nothing: the entry stays as it was after the first `i` user records. */
  lemma {:induction false} KeptEntryPersists(m: map<string, Info>, userResults: seq<Info>, i: nat, id: string)
    requires i <= |userResults|
    requires id in FoldUser(m, userResults[..i])
    requires forall j :: i <= j < |userResults| && SampleId(userResults[j]) == id ==> HasSistrResults(userResults[j])
    ensures id in FoldUser(m, userResults) && FoldUser(m, userResults)[id] == FoldUser(m, userResults[..i])[id]
  {
    if i < |userResults| {
      var init := userResults[..|userResults| - 1];
      assert init[..i] == userResults[..i];
      KeptEntryPersists(m, init, i, id);
    } else {
      assert userResults[..i] == userResults;
    }
  }

  /** Among user records with results for a sample the project does not
      have, the first one is kept and the later ones are refused. */
  lemma FirstUserRecordWins(m: map<string, Info>, userResults: seq<Info>, i: nat)
    requires i < |userResults|
    requires SampleId(userResults[i]) !in m
    requires forall j :: 0 <= j < i ==> SampleId(userResults[j]) != SampleId(userResults[i])
    requires forall j :: i < j < |userResults| && SampleId(userResults[j]) == SampleId(userResults[i]) ==>
               HasSistrResults(userResults[j])
    ensures var id := SampleId(userResults[i]);
            id in FoldUser(m, userResults) && FoldUser(m, userResults)[id] == userResults[i]
  {
    var id := SampleId(userResults[i]);
    var before := userResults[..i];
    FoldUserKeys(m, before);
    assert id !in SampleIds(before);
    assert userResults[..i + 1][..i] == before;
    KeptEntryPersists(m, userResults, i + 1, id);
  }

  /** A user record without results is stored, and stays unless a later
      user record without results for the same sample follows it. */
  lemma NoResultsRecordStored(m: map<string, Info>, userResults: seq<Info>, i: nat)
    requires i < |userResults|
    requires !HasSistrResults(userResults[i])
    requires forall j :: i < j < |userResults| && SampleId(userResults[j]) == SampleId(userResults[i]) ==>
               HasSistrResults(userResults[j])
    ensures var id := SampleId(userResults[i]);
            id in FoldUser(m, userResults) && FoldUser(m, userResults)[id] == userResults[i]
  {
    assert userResults[..i + 1][..i] == userResults[..i];
    KeptEntryPersists(m, userResults, i + 1, SampleId(userResults[i]));
  }
}
