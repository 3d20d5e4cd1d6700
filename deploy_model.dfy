/**
 * The values of commands/deploy.js and the pure decisions taken on them:
 * which members need a stub, which become container artifacts, how one status
 * reply moves the poll loop, how a local path is placed in the archive, and
 * which backend a run uses. The stateful engine is in module DeployEngine.
 */
module DeployModel {
  import opened Wrappers
  import opened Strings
  import Report

  /**
   * One member of the metadata map (`map.meta[type][i]`). An `id` of "" stands
   * for every falsy id of the source: missing, null or empty.
   */
  datatype Member = Member(typeName: string, name: string, id: string, path: string)

  predicate HasId(m: Member) {
    m.id != ""
  }

  /** `map.meta`: members by type name. */
  type Table = map<string, seq<Member>>

  /** `map.meta[k]`, with a missing entry read as no members. */
  function MembersOf(meta: Table, k: string): seq<Member> {
    if k in meta then meta[k] else []
  }

  /** Every member is filed under its own type. */
  ghost predicate WellFiled(meta: Table) {
    forall k, m :: k in meta && m in meta[k] ==> m.typeName == k
  }

  /** What `metaMap.getStub(type, name, object)` stands for: the stub is inserted under that type and name. */
  datatype Stub = Stub(typeName: string, name: string)

  // ----- Stub selection (createStubFiles) -----

  /** The stubs for the members of one type that have no id, in table order. */
  function MissingOf(members: seq<Member>, k: string): (r: seq<Stub>)
    ensures |r| <= |members|
  {
    if members == [] then []
    else (if HasId(members[0]) then [] else [Stub(k, members[0].name)]) + MissingOf(members[1..], k)
  }

  /** `stubs`: over the member type names in order, every member without an id. */
  function Stubs(meta: Table, typeNames: seq<string>): seq<Stub> {
    if typeNames == [] then []
    else MissingOf(MembersOf(meta, typeNames[0]), typeNames[0]) + Stubs(meta, typeNames[1..])
  }

  lemma {:induction false} MissingOfExactly(members: seq<Member>, k: string, st: Stub)
    ensures st in MissingOf(members, k) <==> st.typeName == k && exists m :: m in members && !HasId(m) && m.name == st.name
  {
    if members != [] {
      MissingOfExactly(members[1..], k, st);
      assert members == [members[0]] + members[1..];
      if st.typeName == k && !HasId(members[0]) && members[0].name == st.name {
        assert st in MissingOf(members, k);
      }
    }
  }

  /**
   * A stub is created for a member exactly when the member's type is one of
   * the member types and the member has no id: a member with an id is never
   * stubbed.
   */
  lemma {:induction false} StubsExactlyMissing(meta: Table, typeNames: seq<string>, st: Stub)
    ensures st in Stubs(meta, typeNames) <==>
      && st.typeName in typeNames
      && exists m :: m in MembersOf(meta, st.typeName) && !HasId(m) && m.name == st.name
  {
    if typeNames != [] {
      StubsExactlyMissing(meta, typeNames[1..], st);
      MissingOfExactly(MembersOf(meta, typeNames[0]), typeNames[0], st);
      assert typeNames == [typeNames[0]] + typeNames[1..];
    }
  }

  /** The number of members without an id. */
  function CountMissing(members: seq<Member>): nat {
    if members == [] then 0
    else (if HasId(members[0]) then 0 else 1) + CountMissing(members[1..])
  }

  /** Over the member type names, the number of members without an id. */
  function StubCount(meta: Table, typeNames: seq<string>): nat {
    if typeNames == [] then 0
    else CountMissing(MembersOf(meta, typeNames[0])) + StubCount(meta, typeNames[1..])
  }

  /** Exactly one stub per member of the type that has no id. */
  lemma {:induction false} MissingOfCount(members: seq<Member>, k: string)
    ensures |MissingOf(members, k)| == CountMissing(members)
  {
    if members != [] {
      MissingOfCount(members[1..], k);
    }
  }

  /** Exactly one insert per member of a member type that has no id. */
  lemma {:induction false} StubsCount(meta: Table, typeNames: seq<string>)
    ensures |Stubs(meta, typeNames)| == StubCount(meta, typeNames)
  {
    if typeNames != [] {
      MissingOfCount(MembersOf(meta, typeNames[0]), typeNames[0]);
      StubsCount(meta, typeNames[1..]);
    }
  }

  /** No stub at all exactly when every member of the member types already has an id. */
  lemma NoStubsWhenAllHaveIds(meta: Table, typeNames: seq<string>)
    ensures Stubs(meta, typeNames) == [] <==>
      forall k, m :: k in typeNames && m in MembersOf(meta, k) ==> HasId(m)
  {
    if Stubs(meta, typeNames) != [] {
      var st := Stubs(meta, typeNames)[0];
      StubsExactlyMissing(meta, typeNames, st);
    }
    if exists k, m :: k in typeNames && m in MembersOf(meta, k) && !HasId(m) {
      var k, m :| k in typeNames && m in MembersOf(meta, k) && !HasId(m);
      StubsExactlyMissing(meta, typeNames, Stub(k, m.name));
    }
  }

  // ----- Recording stub ids (map.setMetaId) -----

  /** `map.setMetaId(type, name, id)`: every member of that type with that name gets the id. */
  function SetMetaId(meta: Table, k: string, name: string, id: string): (r: Table)
    ensures r.Keys == meta.Keys
  {
    if k in meta then
      var ms := meta[k];
      meta[k := seq(|ms|, i requires 0 <= i < |ms| => if ms[i].name == name then ms[i].(id := id) else ms[i])]
    else meta
  }

  /** Only the members of type `k` named `name` change, and only in their id. */
  lemma SetMetaIdEffect(meta: Table, k: string, name: string, id: string)
    ensures var r := SetMetaId(meta, k, name, id);
      && (forall k' :: k' != k ==> MembersOf(r, k') == MembersOf(meta, k'))
      && |MembersOf(r, k)| == |MembersOf(meta, k)|
      && (forall i :: 0 <= i < |MembersOf(meta, k)| ==>
            MembersOf(r, k)[i] == (if MembersOf(meta, k)[i].name == name then MembersOf(meta, k)[i].(id := id) else MembersOf(meta, k)[i]))
  {
  }

  /** The table after the first `|ids|` stubs were inserted and each returned id was recorded, in order. */
  function RecordIds(meta: Table, stubs: seq<Stub>, ids: seq<string>): (r: Table)
    requires |ids| == |stubs|
    ensures r.Keys == meta.Keys
  {
    if stubs == [] then meta
    else
      var n := |stubs| - 1;
      SetMetaId(RecordIds(meta, stubs[..n], ids[..n]), stubs[n].typeName, stubs[n].name, ids[n])
  }

  /** Recording ids changes no member list's length. */
  lemma {:induction false} RecordIdsShape(meta: Table, stubs: seq<Stub>, ids: seq<string>, k: string)
    requires |ids| == |stubs|
    ensures |MembersOf(RecordIds(meta, stubs, ids), k)| == |MembersOf(meta, k)|
    decreases |stubs|
  {
    if stubs != [] {
      var n := |stubs| - 1;
      RecordIdsShape(meta, stubs[..n], ids[..n], k);
      SetMetaIdEffect(RecordIds(meta, stubs[..n], ids[..n]), stubs[n].typeName, stubs[n].name, ids[n]);
    }
  }

  lemma {:induction false} RecordIdsKeeps(meta: Table, stubs: seq<Stub>, ids: seq<string>, k: string, i: nat)
    requires |ids| == |stubs|
    requires forall j :: 0 <= j < |ids| ==> ids[j] != ""
    requires i < |MembersOf(meta, k)|
    ensures i < |MembersOf(RecordIds(meta, stubs, ids), k)|
    ensures var m, m' := MembersOf(meta, k)[i], MembersOf(RecordIds(meta, stubs, ids), k)[i];
      && m'.name == m.name
      && (HasId(m) || Stub(k, m.name) in stubs ==> HasId(m'))
    decreases |stubs|
  {
    RecordIdsShape(meta, stubs, ids, k);
    if stubs != [] {
      var n := |stubs| - 1;
      var before := RecordIds(meta, stubs[..n], ids[..n]);
      RecordIdsKeeps(meta, stubs[..n], ids[..n], k, i);
      SetMetaIdEffect(before, stubs[n].typeName, stubs[n].name, ids[n]);
      assert stubs == stubs[..n] + [stubs[n]];
      var m := MembersOf(meta, k)[i];
      var b := MembersOf(before, k)[i];
      assert HasId(m) || Stub(k, m.name) in stubs[..n] ==> HasId(b);
      var after := SetMetaId(before, stubs[n].typeName, stubs[n].name, ids[n]);
      assert RecordIds(meta, stubs, ids) == after;
      if k == stubs[n].typeName {
        assert MembersOf(after, k)[i] == (if b.name == stubs[n].name then b.(id := ids[n]) else b);
      } else {
        assert MembersOf(after, k) == MembersOf(before, k);
      }
    }
  }

  /**
   * After every stub has been inserted and each non-empty returned id recorded,
   * every member of the member types has an id, so the artifact phase sees it.
   */
  lemma AllStubbedHaveIds(meta: Table, typeNames: seq<string>, ids: seq<string>)
    requires |ids| == |Stubs(meta, typeNames)|
    requires forall j :: 0 <= j < |ids| ==> ids[j] != ""
    ensures var after := RecordIds(meta, Stubs(meta, typeNames), ids);
      forall k, i :: k in typeNames && 0 <= i < |MembersOf(after, k)| ==> HasId(MembersOf(after, k)[i])
  {
    var stubs := Stubs(meta, typeNames);
    var after := RecordIds(meta, stubs, ids);
    forall k, i | k in typeNames && 0 <= i < |MembersOf(after, k)| ensures HasId(MembersOf(after, k)[i]) {
      RecordIdsShape(meta, stubs, ids, k);
      RecordIdsKeeps(meta, stubs, ids, k, i);
      var m := MembersOf(meta, k)[i];
      assert m in MembersOf(meta, k);
      StubsExactlyMissing(meta, typeNames, Stub(k, m.name));
    }
  }

  /** What `map.fetchIds()` records: each member whose (type, name) was found remotely gets that id. */
  function WithFetchedIds(meta: Table, ids: map<(string, string), string>): (r: Table)
    ensures r.Keys == meta.Keys
  {
    map k | k in meta :: seq(|meta[k]|, i requires 0 <= i < |meta[k]| =>
      if (k, meta[k][i].name) in ids then meta[k][i].(id := ids[(k, meta[k][i].name)]) else meta[k][i])
  }

  /** After `fetchIds`, a member found remotely carries the remote id; everything else about it is kept. */
  lemma FetchedIdsRecorded(meta: Table, ids: map<(string, string), string>, k: string, i: nat)
    requires k in meta && i < |meta[k]|
    ensures var r := WithFetchedIds(meta, ids);
      && k in r && |r[k]| == |meta[k]|
      && var m, m' := meta[k][i], r[k][i];
      && m'.typeName == m.typeName && m'.name == m.name && m'.path == m.path
      && m'.id == (if (k, m.name) in ids then ids[(k, m.name)] else m.id)
  {
  }

  // ----- Artifact selection (createDeployArtifacts) -----

  /** `_(map.meta).values().flatten()`: all members, in key order. */
  function AllMembers(meta: Table, keys: seq<string>): seq<Member> {
    if keys == [] then [] else MembersOf(meta, keys[0]) + AllMembers(meta, keys[1..])
  }

  /** A member is among all members exactly when it is filed under one of the keys walked. */
  lemma {:induction false} AllMembersOf(meta: Table, keys: seq<string>, x: Member)
    ensures x in AllMembers(meta, keys) <==> exists k :: k in keys && k in meta && x in meta[k]
  {
    if keys != [] {
      AllMembersOf(meta, keys[1..], x);
      assert keys == [keys[0]] + keys[1..];
      if keys[0] in meta && x in meta[keys[0]] {
        assert x in AllMembers(meta, keys);
      }
    }
  }

  /** A member is registered in the container when it has an id and its type is a member type. */
  predicate Registrable(m: Member, typeNames: seq<string>) {
    HasId(m) && m.typeName in typeNames
  }

  function RegistrableOf(members: seq<Member>, typeNames: seq<string>): seq<Member> {
    if members == [] then []
    else (if Registrable(members[0], typeNames) then [members[0]] else []) + RegistrableOf(members[1..], typeNames)
  }

  /** The members that become container artifacts, in the order they are registered. */
  function ArtifactMembers(meta: Table, keys: seq<string>, typeNames: seq<string>): seq<Member> {
    RegistrableOf(AllMembers(meta, keys), typeNames)
  }

  lemma {:induction false} RegistrableOfExactly(members: seq<Member>, typeNames: seq<string>, m: Member)
    ensures m in RegistrableOf(members, typeNames) <==> m in members && Registrable(m, typeNames)
  {
    if members != [] {
      RegistrableOfExactly(members[1..], typeNames, m);
      assert members == [members[0]] + members[1..];
    }
  }

  /**
   * A member becomes an artifact exactly when it is in the table, has a
   * non-empty id and is of a member type.
   */
  lemma ArtifactMembersExactly(meta: Table, keys: seq<string>, typeNames: seq<string>, m: Member)
    ensures m in ArtifactMembers(meta, keys, typeNames) <==>
      m in AllMembers(meta, keys) && HasId(m) && m.typeName in typeNames
  {
    RegistrableOfExactly(AllMembers(meta, keys), typeNames, m);
  }

  // ----- Remote calls -----

  datatype ArchiveEntry =
    | ManifestEntry(dest: string, body: string)
    | FileEntry(source: string, dest: string)
    | DirectoryEntry(source: string, dest: string)

  datatype DeployOptions = DeployOptions(includeDetails: bool, rollbackOnError: bool, runAllTests: bool)

  /** The remote calls the engine makes, with the arguments that matter. */
  datatype Call =
    | FetchIds
    | InsertStub(stub: Stub)
    | SendStaticResource(update: bool, id: string, name: string, contentType: string)
    | CreateContainer
    | AddContainerArtifact(containerId: string, artifactType: string, contentEntityId: string)
    | DeployContainer(containerId: string, isCheckOnly: bool)
    | GetDeployStatus(asyncId: string)
    | DeleteContainer(containerId: string)
    | DeployArchive(entries: seq<ArchiveEntry>, options: DeployOptions)

  datatype CompilerError = CompilerError(extent: string, name: string, line: int, problem: string)

  /**
   * A remote reply: a transport error, or a response whose fields are read as
   * the call needs (`res.id`, `resp.State`, `resp.ErrorMsg`,
   * `resp.CompilerErrors`, the ids found by `fetchIds`, the deploy `details`);
   * an absent string field is "".
   */
  datatype Reply =
    | TransportError(message: string, details: Option<Report.Details>)
    | Ok(id: string, state: string, errorMsg: string, compilerErrors: seq<CompilerError>,
         ids: map<(string, string), string>, details: Option<Report.Details>)

  datatype Exchange = Exchange(call: Call, reply: Reply)

  /** The order of the phases of a run; a run's calls never go back to an earlier phase. */
  function Phase(c: Call): nat {
    match c
    case FetchIds => 0
    case InsertStub(_) => 1
    case SendStaticResource(_, _, _, _) => 2
    case CreateContainer => 3
    case AddContainerArtifact(_, _, _) => 4
    case DeployContainer(_, _) => 5
    case GetDeployStatus(_) => 5
    case DeleteContainer(_) => 6
    case DeployArchive(_, _) => 7
  }

  ghost predicate PhaseOrdered(seg: seq<Exchange>) {
    forall i, j :: 0 <= i < j < |seg| ==> Phase(seg[i].call) <= Phase(seg[j].call)
  }

  /** Every call of `seg` belongs to a phase in `lo..hi`. */
  ghost predicate PhasesWithin(seg: seq<Exchange>, lo: nat, hi: nat) {
    forall i :: 0 <= i < |seg| ==> lo <= Phase(seg[i].call) <= hi
  }

  /** Two ordered runs of calls, the second in no earlier phase than the first, make one ordered run. */
  lemma PhasesConcat(a: seq<Exchange>, b: seq<Exchange>, lo: nat, m1: nat, m2: nat, hi: nat)
    requires PhaseOrdered(a) && PhasesWithin(a, lo, m1)
    requires PhasesWithin(b, m2, hi) && (PhaseOrdered(b) || m2 == hi)
    requires m1 <= m2 && lo <= m2 && m1 <= hi
    ensures PhaseOrdered(a + b) && PhasesWithin(a + b, lo, hi)
  {
  }

  /** The outcome of a run or a phase: settled, or still waiting (the promise has not settled). */
  datatype DeployError =
    | Remote(message: string)
    | Unreadable(path: string)
    | Reason(text: string)
    | CompilerErrors(errors: seq<CompilerError>)

  datatype Outcome = Resolved | Rejected(error: DeployError) | Pending

  /** The `StaticResource` call: `update` when the resource has an id, `insert` otherwise, always as a zip. */
  function StaticResourceCall(m: Member): (c: Call)
    ensures c.SendStaticResource? && c.contentType == "application/zip"
    ensures c.update <==> HasId(m)
    ensures c.name == m.name && c.id == m.id
  {
    SendStaticResource(HasId(m), m.id, m.name, "application/zip")
  }

  /** The `addContainerArtifact` call for a member: `<type>Member` bound to the member's id. */
  function ArtifactCall(containerId: string, m: Member): Call {
    AddContainerArtifact(containerId, m.typeName + "Member", m.id)
  }

  // ----- The poll loop (deployContainer) -----

  /** What one reply does to the poll loop: poll again, settle, or throw out of the callback. */
  datatype Step = Continue | Settle(outcome: Outcome) | Throw(exception: string)

  const ErroredFallback: string := "Tooling API deploy failed. Check Salesforce for more details"

  /**
   * One status reply: `Completed` resolves, `Failed` rejects with the compiler
   * errors, `Errored` rejects with `ErrorMsg` or the fallback text, a transport
   * error rejects, and every other state polls once more.
   */
  function PollStep(r: Reply): (s: Step)
    ensures s == Continue <==> r.Ok? && r.state != "Completed" && r.state != "Failed" && r.state != "Errored"
    ensures s == Settle(Resolved) <==> r.Ok? && r.state == "Completed"
    ensures r.Ok? && r.state == "Failed" ==> s == Settle(Rejected(CompilerErrors(r.compilerErrors)))
    ensures r.Ok? && r.state == "Errored" ==>
      s == Settle(Rejected(Reason(if r.errorMsg != "" then r.errorMsg else ErroredFallback)))
    ensures r.TransportError? ==> s == Settle(Rejected(Remote(r.message)))
    ensures !s.Throw? && s != Settle(Pending)
  {
    match r
    case TransportError(msg, _) => Settle(Rejected(Remote(msg)))
    case Ok(_, state, errorMsg, errors, _, _) =>
      if state == "Completed" then Settle(Resolved)
      else if state == "Failed" then Settle(Rejected(CompilerErrors(errors)))
      else if state == "Errored" then Settle(Rejected(Reason(if errorMsg != "" then errorMsg else ErroredFallback)))
      else Continue
  }

  /** The same step as written: the `Errored` branch reads the undeclared `res`. */
  function PollStepAsWritten(r: Reply): Step {
    match r
    case TransportError(msg, _) => Settle(Rejected(Remote(msg)))
    case Ok(_, state, _, errors, _, _) =>
      if state == "Completed" then Settle(Resolved)
      else if state == "Failed" then Settle(Rejected(CompilerErrors(errors)))
      else if state == "Errored" then Throw("ReferenceError: res is not defined")
      else Continue
  }

  /** The two agree on every reply except an `Errored` state, where the code as written throws. */
  lemma PollStepAsWrittenDiffers(r: Reply)
    ensures PollStepAsWritten(r) != PollStep(r) <==> r.Ok? && r.state == "Errored"
    ensures r.Ok? && r.state == "Errored" ==> PollStepAsWritten(r).Throw? && PollStep(r).Settle?
  {
  }

  /** The reply to the `deployContainer` submission: a transport error rejects, anything else starts polling. */
  function SubmitStep(r: Reply): (s: Step)
    ensures s == Continue <==> r.Ok?
    ensures r.TransportError? ==> s == Settle(Rejected(Remote(r.message)))
  {
    if r.TransportError? then Settle(Rejected(Remote(r.message))) else Continue
  }

  /** The same step as written: the error path calls the undefined `cb`. */
  function SubmitStepAsWritten(r: Reply): Step {
    if r.TransportError? then Throw("ReferenceError: cb is not defined") else Continue
  }

  lemma SubmitStepAsWrittenDiffers(r: Reply)
    ensures SubmitStepAsWritten(r) != SubmitStep(r) <==> r.TransportError?
    ensures r.TransportError? ==> SubmitStepAsWritten(r).Throw? && SubmitStep(r).Settle?
  {
  }

  /**
   * The reading of the two `deployContainer` callbacks a run follows: the
   * intended steps, or the code as written, where an `Errored` status and a
   * failed submission throw.
   */
  datatype Steps = Intended | AsWritten

  function Poll(v: Steps, r: Reply): Step {
    if v == Intended then PollStep(r) else PollStepAsWritten(r)
  }

  function Submit(v: Steps, r: Reply): Step {
    if v == Intended then SubmitStep(r) else SubmitStepAsWritten(r)
  }

  /**
   * What a step that ends the polling leaves the deploy with: the outcome it
   * settles; an exception thrown out of the client's callback settles
   * nothing, so the promise stays pending.
   */
  function Ended(s: Step): (o: Outcome)
    requires !s.Continue?
    ensures s.Throw? ==> o == Pending
    ensures s.Settle? ==> o == s.outcome
  {
    if s.Throw? then Pending else s.outcome
  }

  // ----- The archive (runMetadataDeploy) -----

  /** The local filesystem as the engine sees it: which paths exist, which are directories, which can be read. */
  datatype LocalFiles = LocalFiles(existing: set<string>, directories: set<string>, readable: set<string>)

  const SfdxRoot: string := "force-app/main/default"
  const ManifestPath: string := "src/package.xml"

  /** The place of a local path in the archive: the first SFDX root in it becomes `src`. */
  function DestPath(p: string): string {
    ReplaceFirst(p, SfdxRoot, "src")
  }

  /** An SFDX path is moved under `src`; a path without the SFDX root keeps its place. */
  lemma DestPathRemaps(p: string)
    ensures StartsWith(p, SfdxRoot) ==> DestPath(p) == "src" + p[|SfdxRoot|..]
    ensures (forall j :: !OccursAt(p, SfdxRoot, j)) ==> DestPath(p) == p
  {
    if StartsWith(p, SfdxRoot) {
      ReplaceFirstAtStart(p, SfdxRoot, "src");
    }
    if forall j :: !OccursAt(p, SfdxRoot, j) {
      ReplaceFirstAbsent(p, SfdxRoot, "src");
    }
  }

  function EntryFor(p: string, fs: LocalFiles): ArchiveEntry {
    if p in fs.directories then DirectoryEntry(p, DestPath(p)) else FileEntry(p, DestPath(p))
  }

  /** The paths selected for deploy that do not exist locally, in order. */
  function MissingPaths(paths: seq<string>, fs: LocalFiles): (r: seq<string>)
    ensures forall p :: p in r <==> p in paths && p !in fs.existing
  {
    if paths == [] then []
    else (if paths[0] in fs.existing then [] else [paths[0]]) + MissingPaths(paths[1..], fs)
  }

  /** The archive entries for the paths that exist, in order. */
  function ArchiveEntries(paths: seq<string>, fs: LocalFiles): seq<ArchiveEntry> {
    if paths == [] then []
    else (if paths[0] in fs.existing then [EntryFor(paths[0], fs)] else []) + ArchiveEntries(paths[1..], fs)
  }

  lemma {:induction false} ArchiveEntriesSnoc(paths: seq<string>, p: string, fs: LocalFiles)
    ensures ArchiveEntries(paths + [p], fs) == ArchiveEntries(paths, fs) + (if p in fs.existing then [EntryFor(p, fs)] else [])
  {
    if paths != [] {
      assert (paths + [p])[1..] == paths[1..] + [p];
      ArchiveEntriesSnoc(paths[1..], p, fs);
    }
  }

  lemma {:induction false} MissingPathsSnoc(paths: seq<string>, p: string, fs: LocalFiles)
    ensures MissingPaths(paths + [p], fs) == MissingPaths(paths, fs) + (if p in fs.existing then [] else [p])
  {
    if paths != [] {
      assert (paths + [p])[1..] == paths[1..] + [p];
      MissingPathsSnoc(paths[1..], p, fs);
    }
  }

  /**
   * The archive that is finalised and deployed: the manifest at
   * `src/package.xml`, then one entry per selected path; or the rejection
   * "cannot deploy - missing files" as soon as one selected path is missing.
   */
  function ArchivePlan(paths: seq<string>, fs: LocalFiles, packageXml: string): (r: Result<seq<ArchiveEntry>, DeployError>)
    ensures r.Failure? <==> exists p :: p in paths && p !in fs.existing
    ensures r.Failure? ==> r.error == Reason("cannot deploy - missing files")
    ensures r.Success? ==> |r.value| == |paths| + 1 && r.value[0] == ManifestEntry(ManifestPath, packageXml)
    ensures r.Success? ==> forall i :: 0 <= i < |paths| ==> r.value[i + 1] == EntryFor(paths[i], fs)
  {
    if MissingPaths(paths, fs) != [] then
      assert MissingPaths(paths, fs)[0] in MissingPaths(paths, fs);
      Failure(Reason("cannot deploy - missing files"))
    else
      AllPresentEntries(paths, fs);
      Success([ManifestEntry(ManifestPath, packageXml)] + ArchiveEntries(paths, fs))
  }

  lemma {:induction false} AllPresentEntries(paths: seq<string>, fs: LocalFiles)
    requires forall p :: p in paths ==> p in fs.existing
    ensures |ArchiveEntries(paths, fs)| == |paths|
    ensures forall i :: 0 <= i < |paths| ==> ArchiveEntries(paths, fs)[i] == EntryFor(paths[i], fs)
  {
    if paths != [] {
      AllPresentEntries(paths[1..], fs);
    }
  }

  /**
   * The archive as written: a missing path throws inside the existence check,
   * whose callback is then never called, so the archive is never finalised
   * (None) and the "missing files" rejection is never reached.
   */
  function ArchivePlanAsWritten(paths: seq<string>, fs: LocalFiles, packageXml: string): Option<seq<ArchiveEntry>> {
    if MissingPaths(paths, fs) != [] then None
    else Some([ManifestEntry(ManifestPath, packageXml)] + ArchiveEntries(paths, fs))
  }

  /**
   * As written, the archive is never finalised exactly when the intended plan
   * rejects for missing files; otherwise both hold the same entries.
   */
  lemma MissingFileAsWritten(paths: seq<string>, fs: LocalFiles, packageXml: string)
    ensures ArchivePlanAsWritten(paths, fs, packageXml).None? <==> ArchivePlan(paths, fs, packageXml).Failure?
    ensures ArchivePlanAsWritten(paths, fs, packageXml).Some? ==>
      ArchivePlan(paths, fs, packageXml) == Success(ArchivePlanAsWritten(paths, fs, packageXml).value)
  {
    if MissingPaths(paths, fs) != [] {
      assert MissingPaths(paths, fs)[0] in MissingPaths(paths, fs);
    }
  }

  /** The smallest instance: one selected file that does not exist. */
  lemma OneMissingFileAsWritten()
    ensures var fs := LocalFiles({}, {}, {});
      && ArchivePlanAsWritten(["src/classes/A.cls"], fs, "") == None
      && ArchivePlan(["src/classes/A.cls"], fs, "") == Failure(Reason("cannot deploy - missing files"))
  {
    MissingFileAsWritten(["src/classes/A.cls"], LocalFiles({}, {}, {}), "");
    assert "src/classes/A.cls" in ["src/classes/A.cls"];
  }

  // ----- Backend selection (run) -----

  datatype Backend = Tooling | Metadata

  /** `config.get("deploy_mode") || "dynamic"`. */
  function DeployMode(setting: string): string {
    if setting == "" then "dynamic" else setting
  }

  /** The Tooling backend unless the map needs a full deploy, metadata mode is forced or configured, or tests are run. */
  function SelectBackend(requiresMetadata: bool, forceMeta: bool, deployModeSetting: string, runTests: bool): (b: Backend)
    ensures b == Tooling <==> !requiresMetadata && !forceMeta && deployModeSetting != "metadata" && !runTests
  {
    if !requiresMetadata && !forceMeta && DeployMode(deployModeSetting) != "metadata" && !runTests
    then Tooling
    else Metadata
  }
}
