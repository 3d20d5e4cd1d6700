/**
 * The stateful deploy engine of commands/deploy.js: the metadata map whose
 * ids are recorded in place, the remote org that answers every call from a
 * script and keeps the trace of calls, the phases of the Tooling pipeline,
 * the Metadata pipeline, and the module-level run guard `timesBeingDeployed`.
 *
 * Each batch (`async.mapLimit(..., 5, ...)`) is a sequential loop whose first
 * error ends the batch.
 */
module DeployEngine {
  import opened Wrappers
  import opened DeployModel
  import Report

  /**
   * The metadata map of one run. How it is loaded and how files are matched
   * to types belong to metadata-map, which is not part of this model: those
   * results are the constant fields.
   */
  class MetadataMap {
    /** `map.meta`, the member table whose ids are filled in during a run. */
    var meta: Table
    /** The key order of `map.meta`. */
    const keys: seq<string>
    /** `map.index.getMemberTypeNames()`. */
    const memberTypeNames: seq<string>
    /** `map.getFilePathsForDeploy()`. */
    const filePaths: seq<string>
    /** `map.requiresMetadataDeploy()`. */
    const requiresMetadata: bool
    /** `map.createPackageXML(apiVersion)`. */
    const packageXml: string

    /** `keys` lists every type of `map.meta` once, as `_(map.meta).values()` walks them. */
    ghost predicate Valid()
      reads this
    {
      && (forall k :: k in keys <==> k in meta)
      && (forall i, j :: 0 <= i < j < |keys| ==> keys[i] != keys[j])
    }

    constructor (meta: Table, keys: seq<string>, memberTypeNames: seq<string>, filePaths: seq<string>,
                 requiresMetadata: bool, packageXml: string)
      requires forall k :: k in keys <==> k in meta
      requires forall i, j :: 0 <= i < j < |keys| ==> keys[i] != keys[j]
      ensures Valid()
      ensures this.meta == meta && this.keys == keys && this.memberTypeNames == memberTypeNames
      ensures this.filePaths == filePaths && this.requiresMetadata == requiresMetadata
      ensures this.packageXml == packageXml
    {
      this.meta := meta;
      this.keys := keys;
      this.memberTypeNames := memberTypeNames;
      this.filePaths := filePaths;
      this.requiresMetadata := requiresMetadata;
      this.packageXml := packageXml;
    }

    /** `map.setMetaId(type, name, id)` for each inserted stub and its returned id, in order. */
    method RecordStubIds(stubs: seq<Stub>, ids: seq<string>)
      requires |stubs| == |ids|
      requires Valid()
      modifies this
      ensures Valid()
      ensures meta == RecordIds(old(meta), stubs, ids)
    {
      meta := RecordIds(meta, stubs, ids);
    }

    method RecordFetchedIds(ids: map<(string, string), string>)
      requires Valid()
      modifies this
      ensures Valid()
      ensures meta == WithFetchedIds(old(meta), ids)
    {
      meta := WithFetchedIds(meta, ids);
    }
  }

  /**
   * The Salesforce org behind the client. Its replies are a script: the reply
   * to the n-th call of the session is `replies(n, call)`. `pollLimit` is the
   * number of status queries one deploy observes before the model stops
   * watching (the source polls without bound).
   */
  class Org {
    var trace: seq<Exchange>
    const replies: (nat, Call) -> Reply
    const pollLimit: nat
    /** The member types for which `createDeployArtifact` builds an artifact. */
    const artifactTypes: set<string>

    constructor (replies: (nat, Call) -> Reply, pollLimit: nat, artifactTypes: set<string>)
      ensures trace == [] && this.replies == replies
      ensures this.pollLimit == pollLimit && this.artifactTypes == artifactTypes
    {
      trace := [];
      this.replies := replies;
      this.pollLimit := pollLimit;
      this.artifactTypes := artifactTypes;
    }

    method Send(c: Call) returns (r: Reply)
      modifies this
      ensures r == replies(|old(trace)|, c)
      ensures trace == old(trace) + [Exchange(c, r)]
    {
      r := replies(|trace|, c);
      trace := trace + [Exchange(c, r)];
    }
  }

  // ----- The calls of the Tooling chain's phases -----

  /** The insert call of each stub, in order. */
  function StubCalls(stubs: seq<Stub>): seq<Call> {
    seq(|stubs|, i requires 0 <= i < |stubs| => InsertStub(stubs[i]))
  }

  /** The call that sends each static resource, in order. */
  function StaticCalls(srs: seq<Member>): seq<Call> {
    seq(|srs|, i requires 0 <= i < |srs| => StaticResourceCall(srs[i]))
  }

  /** The artifact call of each member, in order. */
  function ArtifactCalls(containerId: string, arts: seq<Member>): seq<Call> {
    seq(|arts|, i requires 0 <= i < |arts| => ArtifactCall(containerId, arts[i]))
  }

  /** The id each call of `seg` was given, "" for a call that failed. */
  function IdsOf(seg: seq<Exchange>): seq<string> {
    seq(|seg|, i requires 0 <= i < |seg| => if seg[i].reply.Ok? then seg[i].reply.id else "")
  }

  /** The calls of `seg` are the first calls of `calls`, in order. */
  ghost predicate Runs(seg: seq<Exchange>, calls: seq<Call>) {
    |seg| <= |calls| && forall i :: 0 <= i < |seg| ==> seg[i].call == calls[i]
  }

  ghost predicate AllOk(seg: seq<Exchange>) {
    forall i :: 0 <= i < |seg| ==> seg[i].reply.Ok?
  }

  /** `seg` made every call of `calls`, in order, and every one succeeded. */
  ghost predicate Done(seg: seq<Exchange>, calls: seq<Call>) {
    |seg| == |calls| && Runs(seg, calls) && AllOk(seg)
  }

  /** Every call of `seg` but the last succeeded. */
  ghost predicate OkButLast(seg: seq<Exchange>) {
    forall i :: 0 <= i < |seg| - 1 ==> seg[i].reply.Ok?
  }

  /**
   * Phase `k` ended the chain with `out`: it made the first calls of `calls`
   * but not all of them succeeded; every call but the last succeeded, and a
   * failed last call gives the error.
   */
  ghost predicate StoppedAt(seg: seq<Exchange>, calls: seq<Call>, k: nat, out: Outcome) {
    && Runs(seg, calls) && out.Rejected? && !Done(seg, calls) && OkButLast(seg)
    && (seg != [] && seg[|seg| - 1].reply.TransportError? ==>
          out.error == if k == 1 then Reason("unable to create stub files") else Remote(seg[|seg| - 1].reply.message))
  }

  /** The insert batch of `createStubFiles` over the given stubs. */
  method InsertStubs(m: MetadataMap, org: Org, stubs: seq<Stub>)
    returns (r: Result<seq<string>, DeployError>, recorded: seq<string>, ghost seg: seq<Exchange>)
    requires m.Valid()
    modifies m, org
    ensures m.Valid()
    ensures org.trace == old(org.trace) + seg
    ensures PhasesWithin(seg, 1, 1)
    ensures |seg| <= |stubs|
    ensures forall i :: 0 <= i < |seg| ==> seg[i].call == InsertStub(stubs[i])
    ensures |recorded| == (if r.Success? then |seg| else |seg| - 1)
    ensures forall i :: 0 <= i < |recorded| ==> seg[i].reply.Ok? && recorded[i] == seg[i].reply.id
    ensures m.meta == RecordIds(old(m.meta), stubs[..|recorded|], recorded)
    ensures r.Success? <==> |recorded| == |stubs|
    ensures r.Success? ==> r.value == recorded
    ensures r.Failure? ==>
      && |seg| > 0 && seg[|seg| - 1].reply.TransportError?
      && r.error == Reason("unable to create stub files")
  {
    ghost var trace0 := org.trace;
    seg := [];
    recorded := [];
    r := Success([]);
    while |recorded| < |stubs| && r.Success?
      invariant |recorded| <= |stubs|
      invariant |seg| == if r.Success? then |recorded| else |recorded| + 1
      invariant |seg| <= |stubs|
      invariant org.trace == trace0 + seg
      invariant forall j :: 0 <= j < |seg| ==> seg[j].call == InsertStub(stubs[j])
      invariant forall j :: 0 <= j < |recorded| ==> seg[j].reply.Ok? && recorded[j] == seg[j].reply.id
      invariant r.Failure? ==> seg[|seg| - 1].reply.TransportError? && r.error == Reason("unable to create stub files")
      invariant m.meta == old(m.meta)
      decreases |stubs| - |recorded|, if r.Success? then 1 else 0
    {
      var s := stubs[|recorded|];
      var reply := org.Send(InsertStub(s));
      seg := seg + [Exchange(InsertStub(s), reply)];
      if reply.TransportError? {
        r := Failure(Reason("unable to create stub files"));
      } else {
        recorded := recorded + [reply.id];
      }
    }
    if r.Success? {
      r := Success(recorded);
    }
    m.RecordStubIds(stubs[..|recorded|], recorded);
  }

  lemma InsertsDone(seg: seq<Exchange>, stubs: seq<Stub>, recorded: seq<string>)
    requires |seg| == |recorded| == |stubs|
    requires forall i :: 0 <= i < |seg| ==> seg[i].call == InsertStub(stubs[i])
    requires forall i :: 0 <= i < |recorded| ==> seg[i].reply.Ok? && recorded[i] == seg[i].reply.id
    ensures Done(seg, StubCalls(stubs)) && recorded == IdsOf(seg)
  {
  }

  lemma InsertsStopped(seg: seq<Exchange>, stubs: seq<Stub>, recorded: seq<string>, out: Outcome)
    requires 0 < |seg| <= |stubs| && |recorded| == |seg| - 1
    requires forall i :: 0 <= i < |seg| ==> seg[i].call == InsertStub(stubs[i])
    requires forall i :: 0 <= i < |recorded| ==> seg[i].reply.Ok? && recorded[i] == seg[i].reply.id
    requires seg[|seg| - 1].reply.TransportError? && out == Rejected(Reason("unable to create stub files"))
    ensures StoppedAt(seg, StubCalls(stubs), 1, out) && recorded == IdsOf(seg[..|seg| - 1])
  {
    assert !AllOk(seg);
  }

  /**
   * `createStubFiles`: one insert per member of a member type that has no id,
   * in order; each returned id is recorded in the map at once; the first
   * error ends the phase with "unable to create stub files".
   */
  method CreateStubFiles(m: MetadataMap, org: Org)
    returns (r: Result<seq<string>, DeployError>, stubs: seq<Stub>, recorded: seq<string>, ghost seg: seq<Exchange>)
    requires m.Valid()
    modifies m, org
    ensures m.Valid()
    ensures org.trace == old(org.trace) + seg
    ensures PhasesWithin(seg, 1, 1)
    ensures stubs == Stubs(old(m.meta), m.memberTypeNames)
    ensures r.Success? ==> |seg| == StubCount(old(m.meta), m.memberTypeNames)
    ensures r.Success? ==> Done(seg, StubCalls(stubs)) && m.meta == RecordIds(old(m.meta), stubs, IdsOf(seg))
    ensures r.Failure? ==>
      && 0 < |seg| <= |stubs|
      && StoppedAt(seg, StubCalls(stubs), 1, Rejected(r.error))
      && m.meta == RecordIds(old(m.meta), stubs[..|seg| - 1], IdsOf(seg[..|seg| - 1]))
    ensures |seg| <= |stubs|
    ensures forall i :: 0 <= i < |seg| ==> seg[i].call == InsertStub(stubs[i])
    ensures |recorded| == (if r.Success? then |seg| else |seg| - 1)
    ensures forall i :: 0 <= i < |recorded| ==> seg[i].reply.Ok? && recorded[i] == seg[i].reply.id
    ensures m.meta == RecordIds(old(m.meta), stubs[..|recorded|], recorded)
    ensures r.Success? <==> |recorded| == |stubs|
    ensures r.Success? ==> r.value == recorded
    ensures r.Failure? ==>
      && |seg| > 0 && seg[|seg| - 1].reply.TransportError?
      && r.error == Reason("unable to create stub files")
  {
    stubs := Stubs(m.meta, m.memberTypeNames);
    StubsCount(m.meta, m.memberTypeNames);
    r, recorded, seg := InsertStubs(m, org, stubs);
    if r.Success? {
      InsertsDone(seg, stubs, recorded);
      assert stubs[..|recorded|] == stubs;
    } else {
      InsertsStopped(seg, stubs, recorded, Rejected(r.error));
    }
  }

  /**
   * `createStaticResources`: every `StaticResource` member is read from disk
   * and sent as a zip, by update when it has an id and by insert otherwise.
   * An unreadable file or a failed call ends the phase with that error.
   */
  method CreateStaticResources(m: MetadataMap, org: Org, fs: LocalFiles) returns (err: Option<DeployError>, ghost seg: seq<Exchange>)
    modifies org
    ensures org.trace == old(org.trace) + seg
    ensures PhasesWithin(seg, 2, 2)
    ensures var srs := MembersOf(m.meta, "StaticResource");
      && |seg| <= |srs|
      && (forall i :: 0 <= i < |seg| ==> seg[i].call == StaticResourceCall(srs[i]) && srs[i].path in fs.readable)
      && (forall i :: 0 <= i < |seg| - 1 ==> seg[i].reply.Ok?)
      && (err.None? <==> |seg| == |srs| && forall i :: 0 <= i < |seg| ==> seg[i].reply.Ok?)
      && (err.Some? && (|seg| == 0 || seg[|seg| - 1].reply.Ok?) ==>
            |seg| < |srs| && srs[|seg|].path !in fs.readable && err == Some(Unreadable(srs[|seg|].path)))
      && (|seg| > 0 && seg[|seg| - 1].reply.TransportError? ==> err == Some(Remote(seg[|seg| - 1].reply.message)))
    ensures var calls := StaticCalls(MembersOf(m.meta, "StaticResource"));
      && (err.None? ==> Done(seg, calls))
      && (err.Some? ==> StoppedAt(seg, calls, 2, Rejected(err.value)))
    ensures var srs := MembersOf(m.meta, "StaticResource");
      err.Some? && AllOk(seg) ==> |seg| < |srs| && srs[|seg|].path !in fs.readable && err == Some(Unreadable(srs[|seg|].path))
  {
    var srs := MembersOf(m.meta, "StaticResource");
    ghost var trace0 := org.trace;
    seg := [];
    var i := 0;
    while i < |srs|
      invariant 0 <= i <= |srs| && |seg| == i
      invariant org.trace == trace0 + seg
      invariant forall j :: 0 <= j < i ==> seg[j].call == StaticResourceCall(srs[j]) && srs[j].path in fs.readable
      invariant forall j :: 0 <= j < i ==> seg[j].reply.Ok?
    {
      if srs[i].path !in fs.readable {
        return Some(Unreadable(srs[i].path)), seg;
      }
      var reply := org.Send(StaticResourceCall(srs[i]));
      seg := seg + [Exchange(StaticResourceCall(srs[i]), reply)];
      if reply.TransportError? {
        return Some(Remote(reply.message)), seg;
      }
      i := i + 1;
    }
    err := None;
  }

  /** `createContainer`: one call; the new container's id, or the call's error. */
  method CreateContainer(org: Org) returns (r: Result<string, DeployError>, ghost seg: seq<Exchange>)
    modifies org
    ensures org.trace == old(org.trace) + seg
    ensures |seg| == 1 && seg[0].call == Call.CreateContainer
    ensures r.Success? <==> seg[0].reply.Ok?
    ensures seg[0].reply.Ok? ==> r.value == seg[0].reply.id
    ensures seg[0].reply.TransportError? ==> r == Failure(Remote(seg[0].reply.message))
    ensures r.Success? ==> Done(seg, [Call.CreateContainer])
    ensures r.Failure? ==> StoppedAt(seg, [Call.CreateContainer], 3, Rejected(r.error))
  {
    var reply := org.Send(Call.CreateContainer);
    seg := [Exchange(Call.CreateContainer, reply)];
    if reply.TransportError? {
      r := Failure(Remote(reply.message));
    } else {
      r := Success(reply.id);
    }
  }

  /** The artifact batch of `createDeployArtifacts` over the given members. */
  method AddArtifacts(org: Org, fs: LocalFiles, containerId: string, arts: seq<Member>)
    returns (err: Option<DeployError>, ghost seg: seq<Exchange>)
    modifies org
    ensures org.trace == old(org.trace) + seg
    ensures PhasesWithin(seg, 4, 4)
    ensures |seg| <= |arts|
    ensures forall i :: 0 <= i < |seg| ==>
      seg[i].call == ArtifactCall(containerId, arts[i]) && arts[i].path in fs.readable && arts[i].typeName in org.artifactTypes
    ensures forall i :: 0 <= i < |seg| - 1 ==> seg[i].reply.Ok?
    ensures err.None? <==> |seg| == |arts| && forall i :: 0 <= i < |seg| ==> seg[i].reply.Ok?
    ensures err.Some? && (|seg| == 0 || seg[|seg| - 1].reply.Ok?) ==>
      && |seg| < |arts|
      && var a := arts[|seg|];
         if a.path !in fs.readable then err == Some(Unreadable(a.path))
         else a.typeName !in org.artifactTypes && err == Some(Reason("couldn't create artifact: " + a.name))
    ensures |seg| > 0 && seg[|seg| - 1].reply.TransportError? ==> err == Some(Remote(seg[|seg| - 1].reply.message))
  {
    ghost var trace0 := org.trace;
    seg := [];
    var i := 0;
    while i < |arts|
      invariant 0 <= i <= |arts| && |seg| == i
      invariant org.trace == trace0 + seg
      invariant forall j :: 0 <= j < i ==>
        seg[j].call == ArtifactCall(containerId, arts[j]) && arts[j].path in fs.readable && arts[j].typeName in org.artifactTypes
      invariant forall j :: 0 <= j < i ==> seg[j].reply.Ok?
    {
      var a := arts[i];
      if a.path !in fs.readable {
        return Some(Unreadable(a.path)), seg;
      }
      if a.typeName !in org.artifactTypes {
        return Some(Reason("couldn't create artifact: " + a.name)), seg;
      }
      var reply := org.Send(ArtifactCall(containerId, a));
      seg := seg + [Exchange(ArtifactCall(containerId, a), reply)];
      if reply.TransportError? {
        return Some(Remote(reply.message)), seg;
      }
      i := i + 1;
    }
    err := None;
  }

  /**
   * `createDeployArtifacts`: every member that has an id and belongs to a
   * member type is read and registered in the container as `<type>Member`.
   */
  method CreateDeployArtifacts(m: MetadataMap, org: Org, fs: LocalFiles, containerId: string)
    returns (err: Option<DeployError>, arts: seq<Member>, ghost seg: seq<Exchange>)
    requires m.Valid()
    modifies org
    ensures org.trace == old(org.trace) + seg
    ensures PhasesWithin(seg, 4, 4)
    ensures arts == ArtifactMembers(m.meta, m.keys, m.memberTypeNames)
    ensures forall x :: x in arts <==>
      (exists k :: k in m.meta && x in m.meta[k]) && HasId(x) && x.typeName in m.memberTypeNames
    ensures |seg| <= |arts|
    ensures forall i :: 0 <= i < |seg| ==> seg[i].call == ArtifactCall(containerId, arts[i])
    ensures forall i :: 0 <= i < |seg| - 1 ==> seg[i].reply.Ok?
    ensures err.None? <==> |seg| == |arts| && forall i :: 0 <= i < |seg| ==> seg[i].reply.Ok?
    ensures err.Some? && (|seg| == 0 || seg[|seg| - 1].reply.Ok?) ==>
      && |seg| < |arts|
      && var a := arts[|seg|];
         if a.path !in fs.readable then err == Some(Unreadable(a.path))
         else a.typeName !in org.artifactTypes && err == Some(Reason("couldn't create artifact: " + a.name))
    ensures |seg| > 0 && seg[|seg| - 1].reply.TransportError? ==> err == Some(Remote(seg[|seg| - 1].reply.message))
    ensures err.None? ==> Done(seg, ArtifactCalls(containerId, arts))
    ensures err.Some? ==> StoppedAt(seg, ArtifactCalls(containerId, arts), 4, Rejected(err.value))
    ensures err.Some? && AllOk(seg) ==>
      && |seg| < |arts|
      && var a := arts[|seg|];
         if a.path !in fs.readable then err == Some(Unreadable(a.path))
         else a.typeName !in org.artifactTypes && err == Some(Reason("couldn't create artifact: " + a.name))
  {
    arts := ArtifactMembers(m.meta, m.keys, m.memberTypeNames);
    forall x ensures x in arts <==> (exists k :: k in m.meta && x in m.meta[k]) && HasId(x) && x.typeName in m.memberTypeNames {
      ArtifactMembersExactly(m.meta, m.keys, m.memberTypeNames, x);
      AllMembersOf(m.meta, m.keys, x);
    }
    err, seg := AddArtifacts(org, fs, containerId, arts);
  }

  /**
   * The calls and the outcome of `deployContainer`: nothing without a
   * container id; otherwise the submission, then status queries with the
   * submission's id, every one but the last polling again; the last one
   * settles the outcome unless the poll budget ran out first.
   */
  ghost predicate DeployTrace(seg: seq<Exchange>, containerId: string, out: Outcome, pollLimit: nat, v: Steps) {
    && PhasesWithin(seg, 5, 5)
    && (out == Resolved || (v == Intended && out == Pending) ==> forall i :: 0 <= i < |seg| ==> seg[i].reply.Ok?)
    && (containerId == "" ==> out == Resolved && seg == [])
    && (containerId != "" ==>
      && |seg| >= 1 && seg[0].call == Call.DeployContainer(containerId, false)
      && (seg[0].reply.TransportError? ==> |seg| == 1 && out == Ended(Submit(v, seg[0].reply)))
      && (seg[0].reply.Ok? ==>
            && |seg| <= 1 + pollLimit
            && (forall i :: 1 <= i < |seg| ==> seg[i].call == GetDeployStatus(seg[0].reply.id))
            && (forall i :: 1 <= i < |seg| - 1 ==> Poll(v, seg[i].reply) == Continue)
            && (|seg| >= 2 && !Poll(v, seg[|seg| - 1].reply).Continue? ==> out == Ended(Poll(v, seg[|seg| - 1].reply)))
            && (|seg| == 1 || Poll(v, seg[|seg| - 1].reply).Continue? ==> out == Pending && |seg| == 1 + pollLimit)))
  }

  /**
   * `deployContainer`: without a container id nothing is done; otherwise the
   * container is submitted and its status polled until a reply ends the
   * polling, read by the steps `v`. A step that throws leaves the deploy
   * pending for good. The poll loop stops watching after `org.pollLimit`
   * replies that do not settle, and the outcome is then `Pending` as well.
   */
  method DeployContainer(org: Org, containerId: string, v: Steps) returns (out: Outcome, ghost seg: seq<Exchange>)
    modifies org
    ensures org.trace == old(org.trace) + seg
    ensures DeployTrace(seg, containerId, out, org.pollLimit, v)
  {
    if containerId == "" {
      return Resolved, [];
    }
    var submitted := org.Send(Call.DeployContainer(containerId, false));
    seg := [Exchange(Call.DeployContainer(containerId, false), submitted)];
    var step := Submit(v, submitted);
    if !step.Continue? {
      return Ended(step), seg;
    }
    var asyncId := submitted.id;
    ghost var trace0 := old(org.trace);
    var polls := 0;
    while polls < org.pollLimit
      invariant 0 <= polls <= org.pollLimit && |seg| == 1 + polls
      invariant org.trace == trace0 + seg
      invariant seg[0] == Exchange(Call.DeployContainer(containerId, false), submitted)
      invariant forall i :: 1 <= i < |seg| ==> seg[i].call == GetDeployStatus(asyncId) && Poll(v, seg[i].reply) == Continue
    {
      var reply := org.Send(GetDeployStatus(asyncId));
      seg := seg + [Exchange(GetDeployStatus(asyncId), reply)];
      var next := Poll(v, reply);
      if !next.Continue? {
        return Ended(next), seg;
      }
      polls := polls + 1;
    }
    out := Pending;
  }

  // ----- The Tooling chain (runToolingDeploy) -----

  /**
   * Phase `k` of a chain that phase `stopped` ended: it makes the first
   * calls of `calls`; a phase before `stopped` makes them all and each one
   * succeeds, a phase after it makes none, and phase `stopped` itself
   * rejects the chain, after calls that all succeeded but the last, whose
   * failure gives the chain's error.
   */
  ghost predicate Stage(seg: seq<Exchange>, calls: seq<Call>, k: nat, stopped: nat, out: Outcome) {
    && Runs(seg, calls)
    && (k < stopped ==> Done(seg, calls))
    && (k > stopped ==> seg == [])
    && (k == stopped ==> StoppedAt(seg, calls, k, out))
  }

  /** The calls of the chain: the calls of each of its six phases, in order. */
  function ChainTrace(parts: seq<seq<Exchange>>): seq<Exchange>
    requires |parts| == 6
  {
    parts[0] + parts[1] + parts[2] + parts[3] + parts[4] + parts[5]
  }

  /**
   * The promise chain of `runToolingDeploy` as six phases: (0) fetch the ids
   * of the map's members, (1) insert a stub for each member of a member type
   * that still has no id, taken from the map as the fetch left it, (2) send
   * the static resources, (3) create the container, (4) register each
   * member that has an id as an artifact of that container, (5) deploy the
   * container. `parts[k]` holds the calls of phase k; the chain stopped at
   * phase `stopped`, which alone can fail, and the map goes from `before` to
   * `fetched` by the fetch and to `after` by the stubs' ids.
   */
  ghost predicate ToolingChain(m: MetadataMap, org: Org, fs: LocalFiles, v: Steps, before: Table, fetched: Table, after: Table,
                               parts: seq<seq<Exchange>>, stopped: nat, out: Outcome, containerId: string) {
    && |parts| == 6 && stopped <= 5
    && |parts[0]| == 1
    && Stage(parts[0], [FetchIds], 0, stopped, out)
    && (stopped == 0 ==> after == before)
    && (stopped >= 1 ==> parts[0][0].reply.Ok? && fetched == WithFetchedIds(before, parts[0][0].reply.ids))
    && StubChain(m, org, fs, v, fetched, after, parts[1], parts[2], parts[3], parts[4], parts[5], stopped, out, containerId)
  }

  /**
   * Phases 1 to 5 of a chain that phase `stopped` ended: the stubs of the
   * map `fetched`, whose ids turn it into `after`, then the rest over `after`.
   */
  ghost predicate StubChain(m: MetadataMap, org: Org, fs: LocalFiles, v: Steps, fetched: Table, after: Table,
                            s1: seq<Exchange>, s2: seq<Exchange>, s3: seq<Exchange>, s4: seq<Exchange>, s5: seq<Exchange>,
                            stopped: nat, out: Outcome, containerId: string) {
    var stubs := Stubs(fetched, m.memberTypeNames);
    && Stage(s1, StubCalls(stubs), 1, stopped, out)
    // the id of every stub inserted before the chain stopped is in the map
    && (stopped == 1 ==>
          0 < |s1| <= |stubs| && after == RecordIds(fetched, stubs[..|s1| - 1], IdsOf(s1[..|s1| - 1])))
    && (stopped >= 2 ==> |s1| == |stubs| && after == RecordIds(fetched, stubs, IdsOf(s1)))
    && StaticChain(m, org, fs, v, after, s2, s3, s4, s5, stopped, out, containerId)
  }

  /** Phases 2 to 5 of a chain that phase `stopped` ended, over the map `meta`. */
  ghost predicate StaticChain(m: MetadataMap, org: Org, fs: LocalFiles, v: Steps, meta: Table,
                              s2: seq<Exchange>, s3: seq<Exchange>, s4: seq<Exchange>, s5: seq<Exchange>,
                              stopped: nat, out: Outcome, containerId: string) {
    var srs := MembersOf(meta, "StaticResource");
    && Stage(s2, StaticCalls(srs), 2, stopped, out)
    // the static phase reads every resource before sending it
    && (stopped == 2 && AllOk(s2) ==>
          |s2| < |srs| && srs[|s2|].path !in fs.readable && out == Rejected(Unreadable(srs[|s2|].path)))
    && ContainerChain(m, org, fs, v, meta, s3, s4, s5, stopped, out, containerId)
  }

  /**
   * Phases 3 to 5 of a chain that phase `stopped` ended, over the map
   * `meta`: create the container (`s3`), register the artifacts (`s4`),
   * deploy (`s5`). The container is the one phase 3 created.
   */
  ghost predicate ContainerChain(m: MetadataMap, org: Org, fs: LocalFiles, v: Steps, meta: Table,
                                 s3: seq<Exchange>, s4: seq<Exchange>, s5: seq<Exchange>,
                                 stopped: nat, out: Outcome, containerId: string) {
    var arts := ArtifactMembers(meta, m.keys, m.memberTypeNames);
    && Stage(s3, [Call.CreateContainer], 3, stopped, out)
    && Stage(s4, ArtifactCalls(containerId, arts), 4, stopped, out)
    && (stopped < 5 ==> s5 == [])
    && (stopped == 5 ==> DeployTrace(s5, containerId, out, org.pollLimit, v))
    // the artifact phase reads every member, and knows only some types
    && (stopped == 4 && AllOk(s4) ==>
          && |s4| < |arts|
          && var a := arts[|s4|];
             if a.path !in fs.readable then out == Rejected(Unreadable(a.path))
             else a.typeName !in org.artifactTypes && out == Rejected(Reason("couldn't create artifact: " + a.name)))
    && (stopped < 4 ==> containerId == "")
    && (stopped >= 4 ==> |s3| == 1 && s3[0].reply.Ok? && containerId == s3[0].reply.id)
  }

  lemma ChainTraceAfter(t: seq<Exchange>, parts: seq<seq<Exchange>>)
    requires |parts| == 6
    ensures t + parts[0] + parts[1] + parts[2] + parts[3] + parts[4] + parts[5] == t + ChainTrace(parts)
  {
  }

  lemma AppendAssoc(a: seq<Exchange>, b: seq<Exchange>, c: seq<Exchange>)
    ensures a + b + c == a + (b + c)
  {
  }

  /** The calls of a chain never go back to an earlier phase. */
  lemma ChainOrdered(m: MetadataMap, org: Org, fs: LocalFiles, v: Steps, before: Table, fetched: Table, after: Table,
                     parts: seq<seq<Exchange>>, stopped: nat, out: Outcome, containerId: string)
    requires ToolingChain(m, org, fs, v, before, fetched, after, parts, stopped, out, containerId)
    ensures PhaseOrdered(ChainTrace(parts)) && PhasesWithin(ChainTrace(parts), 0, 5)
  {
    var stubs := Stubs(fetched, m.memberTypeNames);
    var srs := MembersOf(after, "StaticResource");
    var arts := ArtifactMembers(after, m.keys, m.memberTypeNames);
    assert PhasesWithin(parts[1], 1, 1) by {
      forall i | 0 <= i < |parts[1]| ensures Phase(parts[1][i].call) == 1 {
        assert parts[1][i].call == StubCalls(stubs)[i];
      }
    }
    assert PhasesWithin(parts[2], 2, 2) by {
      forall i | 0 <= i < |parts[2]| ensures Phase(parts[2][i].call) == 2 {
        assert parts[2][i].call == StaticCalls(srs)[i];
      }
    }
    assert PhasesWithin(parts[4], 4, 4) by {
      forall i | 0 <= i < |parts[4]| ensures Phase(parts[4][i].call) == 4 {
        assert parts[4][i].call == ArtifactCalls(containerId, arts)[i];
      }
    }
    PhasesConcat(parts[0], parts[1], 0, 0, 1, 1);
    PhasesConcat(parts[0] + parts[1], parts[2], 0, 1, 2, 2);
    PhasesConcat(parts[0] + parts[1] + parts[2], parts[3], 0, 2, 3, 3);
    PhasesConcat(parts[0] + parts[1] + parts[2] + parts[3], parts[4], 0, 3, 4, 4);
    PhasesConcat(parts[0] + parts[1] + parts[2] + parts[3] + parts[4], parts[5], 0, 4, 5, 5);
  }

  /** A chain starts with the fetch of the ids. */
  lemma ChainStarts(m: MetadataMap, org: Org, fs: LocalFiles, v: Steps, before: Table, fetched: Table, after: Table,
                    parts: seq<seq<Exchange>>, stopped: nat, out: Outcome, containerId: string)
    requires ToolingChain(m, org, fs, v, before, fetched, after, parts, stopped, out, containerId)
    ensures |ChainTrace(parts)| > 0 && ChainTrace(parts)[0].call == FetchIds
  {
    assert ChainTrace(parts)[0] == parts[0][0];
  }

  lemma FetchStops(m: MetadataMap, org: Org, fs: LocalFiles, v: Steps, before: Table, s0: seq<Exchange>, out: Outcome)
    requires |s0| == 1 && s0[0].call == FetchIds && s0[0].reply.TransportError?
    requires out == Rejected(Remote(s0[0].reply.message))
    ensures ToolingChain(m, org, fs, v, before, before, before, [s0, [], [], [], [], []], 0, out, "")
  {
    assert !AllOk(s0);
  }

  lemma FetchThen(m: MetadataMap, org: Org, fs: LocalFiles, v: Steps, before: Table, fetched: Table, after: Table,
                  s0: seq<Exchange>, s1: seq<Exchange>, s2: seq<Exchange>, s3: seq<Exchange>, s4: seq<Exchange>,
                  s5: seq<Exchange>, stopped: nat, out: Outcome, containerId: string)
    requires |s0| == 1 && s0[0].call == FetchIds && s0[0].reply.Ok?
    requires fetched == WithFetchedIds(before, s0[0].reply.ids)
    requires 1 <= stopped <= 5 && StubChain(m, org, fs, v, fetched, after, s1, s2, s3, s4, s5, stopped, out, containerId)
    ensures ToolingChain(m, org, fs, v, before, fetched, after, [s0, s1, s2, s3, s4, s5], stopped, out, containerId)
  {
  }

  lemma StubsStop(m: MetadataMap, org: Org, fs: LocalFiles, v: Steps, fetched: Table, after: Table, s1: seq<Exchange>, out: Outcome)
    requires var stubs := Stubs(fetched, m.memberTypeNames);
      && 0 < |s1| <= |stubs|
      && StoppedAt(s1, StubCalls(stubs), 1, out)
      && after == RecordIds(fetched, stubs[..|s1| - 1], IdsOf(s1[..|s1| - 1]))
    ensures StubChain(m, org, fs, v, fetched, after, s1, [], [], [], [], 1, out, "")
  {
  }

  lemma StubsThen(m: MetadataMap, org: Org, fs: LocalFiles, v: Steps, fetched: Table, after: Table,
                  s1: seq<Exchange>, s2: seq<Exchange>, s3: seq<Exchange>, s4: seq<Exchange>, s5: seq<Exchange>,
                  stopped: nat, out: Outcome, containerId: string)
    requires var stubs := Stubs(fetched, m.memberTypeNames);
      Done(s1, StubCalls(stubs)) && after == RecordIds(fetched, stubs, IdsOf(s1))
    requires 2 <= stopped <= 5 && StaticChain(m, org, fs, v, after, s2, s3, s4, s5, stopped, out, containerId)
    ensures StubChain(m, org, fs, v, fetched, after, s1, s2, s3, s4, s5, stopped, out, containerId)
  {
  }

  lemma StaticStops(m: MetadataMap, org: Org, fs: LocalFiles, v: Steps, meta: Table, s2: seq<Exchange>, out: Outcome)
    requires var srs := MembersOf(meta, "StaticResource");
      && StoppedAt(s2, StaticCalls(srs), 2, out)
      && (AllOk(s2) ==> |s2| < |srs| && srs[|s2|].path !in fs.readable && out == Rejected(Unreadable(srs[|s2|].path)))
    ensures StaticChain(m, org, fs, v, meta, s2, [], [], [], 2, out, "")
  {
  }

  lemma StaticThen(m: MetadataMap, org: Org, fs: LocalFiles, v: Steps, meta: Table,
                   s2: seq<Exchange>, s3: seq<Exchange>, s4: seq<Exchange>, s5: seq<Exchange>,
                   stopped: nat, out: Outcome, containerId: string)
    requires Done(s2, StaticCalls(MembersOf(meta, "StaticResource")))
    requires 3 <= stopped <= 5 && ContainerChain(m, org, fs, v, meta, s3, s4, s5, stopped, out, containerId)
    ensures StaticChain(m, org, fs, v, meta, s2, s3, s4, s5, stopped, out, containerId)
  {
  }

  /**
   * The promise chain of `runToolingDeploy` before its `finally`: fetch the
   * ids, create the stubs, send the static resources, create the container,
   * add the artifacts and deploy. The first phase that fails rejects the
   * chain and no later phase runs.
   */
  method ToolingPhases(m: MetadataMap, org: Org, fs: LocalFiles, v: Steps)
    returns (out: Outcome, containerId: string, ghost parts: seq<seq<Exchange>>, ghost stopped: nat, ghost fetched: Table)
    requires m.Valid()
    modifies m, org
    ensures m.Valid()
    ensures |parts| == 6
    ensures org.trace == old(org.trace) + ChainTrace(parts)
    ensures ToolingChain(m, org, fs, v, old(m.meta), fetched, m.meta, parts, stopped, out, containerId)
  {
    ghost var before := m.meta;
    var reply := org.Send(FetchIds);
    ghost var s0 := [Exchange(FetchIds, reply)];
    if reply.TransportError? {
      out := Rejected(Remote(reply.message));
      FetchStops(m, org, fs, v, before, s0, out);
      return out, "", [s0, [], [], [], [], []], 0, before;
    }
    m.RecordFetchedIds(reply.ids);
    fetched := m.meta;
    ghost var s1, s2, s3, s4, s5;
    out, containerId, s1, s2, s3, s4, s5, stopped := StubPhases(m, org, fs, v);
    FetchThen(m, org, fs, v, before, fetched, m.meta, s0, s1, s2, s3, s4, s5, stopped, out, containerId);
    parts := [s0, s1, s2, s3, s4, s5];
    ChainTraceAfter(old(org.trace), parts);
  }

  /** The chain after the fetch: create the stubs, then the rest. */
  method StubPhases(m: MetadataMap, org: Org, fs: LocalFiles, v: Steps)
    returns (out: Outcome, containerId: string, ghost s1: seq<Exchange>, ghost s2: seq<Exchange>, ghost s3: seq<Exchange>,
             ghost s4: seq<Exchange>, ghost s5: seq<Exchange>, ghost stopped: nat)
    requires m.Valid()
    modifies m, org
    ensures m.Valid()
    ensures org.trace == old(org.trace) + s1 + s2 + s3 + s4 + s5
    ensures 1 <= stopped <= 5
    ensures StubChain(m, org, fs, v, old(m.meta), m.meta, s1, s2, s3, s4, s5, stopped, out, containerId)
  {
    ghost var fetched := m.meta;
    var stubbed, stubs, recorded;
    stubbed, stubs, recorded, s1 := CreateStubFiles(m, org);
    ghost var after := m.meta;
    if stubbed.Failure? {
      out := Rejected(stubbed.error);
      StubsStop(m, org, fs, v, fetched, after, s1, out);
      return out, "", s1, [], [], [], [], 1;
    }
    out, containerId, s2, s3, s4, s5, stopped := StaticPhases(m, org, fs, v);
    StubsThen(m, org, fs, v, fetched, after, s1, s2, s3, s4, s5, stopped, out, containerId);
  }

  /** The chain after the stubs: send the static resources, then the rest. */
  method StaticPhases(m: MetadataMap, org: Org, fs: LocalFiles, v: Steps)
    returns (out: Outcome, containerId: string, ghost s2: seq<Exchange>, ghost s3: seq<Exchange>,
             ghost s4: seq<Exchange>, ghost s5: seq<Exchange>, ghost stopped: nat)
    requires m.Valid()
    modifies org
    ensures org.trace == old(org.trace) + s2 + s3 + s4 + s5
    ensures 2 <= stopped <= 5
    ensures StaticChain(m, org, fs, v, m.meta, s2, s3, s4, s5, stopped, out, containerId)
  {
    var sent;
    sent, s2 := CreateStaticResources(m, org, fs);
    if sent.Some? {
      out := Rejected(sent.value);
      StaticStops(m, org, fs, v, m.meta, s2, out);
      return out, "", s2, [], [], [], 2;
    }
    out, containerId, s3, s4, s5, stopped := ContainerPhases(m, org, fs, v);
    StaticThen(m, org, fs, v, m.meta, s2, s3, s4, s5, stopped, out, containerId);
  }

  /** The chain after the static resources: create the container, add the artifacts, deploy. */
  method ContainerPhases(m: MetadataMap, org: Org, fs: LocalFiles, v: Steps)
    returns (out: Outcome, containerId: string, ghost s3: seq<Exchange>, ghost s4: seq<Exchange>, ghost s5: seq<Exchange>,
             ghost stopped: nat)
    requires m.Valid()
    modifies org
    ensures org.trace == old(org.trace) + s3 + s4 + s5
    ensures 3 <= stopped <= 5
    ensures ContainerChain(m, org, fs, v, m.meta, s3, s4, s5, stopped, out, containerId)
  {
    var created;
    created, s3 := CreateContainer(org);
    if created.Failure? {
      return Rejected(created.error), "", s3, [], [], 3;
    }
    containerId := created.value;

    var added, arts;
    added, arts, s4 := CreateDeployArtifacts(m, org, fs, containerId);
    if added.Some? {
      return Rejected(added.value), containerId, s3, s4, [], 4;
    }

    out, s5 := DeployContainer(org, containerId, v);
    stopped := 5;
  }

  /**
   * A settled or pending run of `runToolingDeploy` past its guard: the chain
   * of the six phases, then, once the chain has settled with a container,
   * the delete of that container as the last call, whose failure alone can
   * change the chain's outcome.
   */
  ghost predicate ToolingRun(m: MetadataMap, org: Org, fs: LocalFiles, v: Steps, before: Table, fetched: Table, after: Table,
                             parts: seq<seq<Exchange>>, stopped: nat, chainOut: Outcome, containerId: string,
                             seg: seq<Exchange>, out: Outcome) {
    && |parts| == 6
    && ToolingChain(m, org, fs, v, before, fetched, after, parts, stopped, chainOut, containerId)
    && PhaseOrdered(seg)
    && |seg| > 0 && seg[0].call == FetchIds
    && (chainOut != Pending && containerId != "" ==>
          && seg == ChainTrace(parts) + [seg[|seg| - 1]]
          && seg[|seg| - 1].call == Call.DeleteContainer(containerId)
          && out == if seg[|seg| - 1].reply.TransportError? then Rejected(Remote(seg[|seg| - 1].reply.message)) else chainOut)
    && (chainOut == Pending || containerId == "" ==> seg == ChainTrace(parts) && out == chainOut)
  }

  lemma ToolingRunOf(m: MetadataMap, org: Org, fs: LocalFiles, v: Steps, before: Table, fetched: Table, after: Table,
                     parts: seq<seq<Exchange>>, stopped: nat, chainOut: Outcome, containerId: string,
                     tail: seq<Exchange>, seg: seq<Exchange>, out: Outcome)
    requires ToolingChain(m, org, fs, v, before, fetched, after, parts, stopped, chainOut, containerId)
    requires PhasesWithin(tail, 6, 6)
    requires chainOut != Pending && containerId != "" ==>
      && |tail| == 1 && tail[0].call == Call.DeleteContainer(containerId)
      && out == if tail[0].reply.TransportError? then Rejected(Remote(tail[0].reply.message)) else chainOut
    requires chainOut == Pending || containerId == "" ==> tail == [] && out == chainOut
    requires seg == ChainTrace(parts) + tail
    ensures ToolingRun(m, org, fs, v, before, fetched, after, parts, stopped, chainOut, containerId, seg, out)
  {
    ChainOrdered(m, org, fs, v, before, fetched, after, parts, stopped, chainOut, containerId);
    ChainStarts(m, org, fs, v, before, fetched, after, parts, stopped, chainOut, containerId);
    PhasesConcat(ChainTrace(parts), tail, 0, 5, 6, 6);
    if chainOut != Pending && containerId != "" {
      assert seg[|seg| - 1] == tail[0];
    }
  }

  /**
   * The deploy phase ended on a reply whose callback, as written, throws:
   * a failed submission, or a status reply in the `Errored` state.
   */
  ghost predicate EndsOnThrowingReply(s5: seq<Exchange>) {
    || (|s5| == 1 && s5[0].reply.TransportError?)
    || (|s5| >= 2 && s5[|s5| - 1].reply.Ok? && s5[|s5| - 1].reply.state == "Errored")
  }

  /**
   * As written, a run whose deploy ends on a failed submission or an
   * `Errored` status never settles: no delete of the container is sent.
   */
  lemma ThrowingReplyLeavesRunPendingAsWritten(m: MetadataMap, org: Org, fs: LocalFiles, before: Table, fetched: Table,
                                               after: Table, parts: seq<seq<Exchange>>, stopped: nat, chainOut: Outcome,
                                               containerId: string, seg: seq<Exchange>, out: Outcome)
    requires ToolingRun(m, org, fs, AsWritten, before, fetched, after, parts, stopped, chainOut, containerId, seg, out)
    requires stopped == 5 && EndsOnThrowingReply(parts[5])
    ensures chainOut == Pending && out == Pending && seg == ChainTrace(parts)
    ensures forall i :: 0 <= i < |seg| ==> !seg[i].call.DeleteContainer?
  {
    ChainOrdered(m, org, fs, AsWritten, before, fetched, after, parts, stopped, chainOut, containerId);
    forall i | 0 <= i < |seg| ensures !seg[i].call.DeleteContainer? {
      assert Phase(seg[i].call) <= 5;
    }
  }

  /**
   * With the intended steps, the same run settles: an `Errored` status
   * rejects with its message or the fallback text, a failed submission
   * with its error, and the container is deleted as the last call.
   */
  lemma ThrowingReplySettlesRunIntended(m: MetadataMap, org: Org, fs: LocalFiles, before: Table, fetched: Table,
                                        after: Table, parts: seq<seq<Exchange>>, stopped: nat, chainOut: Outcome,
                                        containerId: string, seg: seq<Exchange>, out: Outcome)
    requires ToolingRun(m, org, fs, Intended, before, fetched, after, parts, stopped, chainOut, containerId, seg, out)
    requires stopped == 5 && EndsOnThrowingReply(parts[5])
    ensures var r := parts[5][|parts[5]| - 1].reply;
      chainOut == Rejected(if r.Ok? then Reason(if r.errorMsg != "" then r.errorMsg else ErroredFallback) else Remote(r.message))
    ensures |seg| > 0 && seg[|seg| - 1].call == Call.DeleteContainer(containerId)
  {
  }

  /** `deleteContainer`: one call; its error, if it failed. */
  method DestroyContainer(org: Org, containerId: string) returns (err: Option<DeployError>, ghost seg: seq<Exchange>)
    modifies org
    ensures org.trace == old(org.trace) + seg
    ensures |seg| == 1 && seg[0].call == Call.DeleteContainer(containerId)
    ensures err.None? <==> seg[0].reply.Ok?
    ensures seg[0].reply.TransportError? ==> err == Some(Remote(seg[0].reply.message))
  {
    var reply := org.Send(Call.DeleteContainer(containerId));
    seg := [Exchange(Call.DeleteContainer(containerId), reply)];
    err := if reply.TransportError? then Some(Remote(reply.message)) else None;
  }

  /**
   * The `finally` of `runToolingDeploy`: once the chain has settled, the
   * container, when one was obtained, is deleted; a failed delete rejects
   * the run, and otherwise the chain's outcome stands.
   */
  method FinallyDelete(org: Org, chainOut: Outcome, containerId: string) returns (out: Outcome, ghost seg: seq<Exchange>)
    modifies org
    ensures org.trace == old(org.trace) + seg
    ensures PhasesWithin(seg, 6, 6)
    ensures chainOut != Pending && containerId != "" ==>
      && |seg| == 1 && seg[0].call == Call.DeleteContainer(containerId)
      && out == if seg[0].reply.TransportError? then Rejected(Remote(seg[0].reply.message)) else chainOut
    ensures chainOut == Pending || containerId == "" ==> seg == [] && out == chainOut
  {
    out, seg := chainOut, [];
    if chainOut != Pending && containerId != "" {
      var deleted;
      deleted, seg := DestroyContainer(org, containerId);
      if deleted.Some? {
        out := Rejected(deleted.value);
      }
    }
  }

  /**
   * The chain of `runToolingDeploy` followed by its `finally`: the phases in
   * order, then the delete of the container once the chain has settled.
   */
  method ToolingWithFinally(m: MetadataMap, org: Org, fs: LocalFiles, v: Steps)
    returns (out: Outcome, containerId: string, ghost seg: seq<Exchange>, ghost parts: seq<seq<Exchange>>,
             ghost stopped: nat, ghost chainOut: Outcome, ghost fetched: Table)
    requires m.Valid()
    modifies m, org
    ensures m.Valid()
    ensures org.trace == old(org.trace) + seg
    ensures ToolingRun(m, org, fs, v, old(m.meta), fetched, m.meta, parts, stopped, chainOut, containerId, seg, out)
  {
    ghost var before, trace0 := m.meta, org.trace;
    out, containerId, parts, stopped, fetched := ToolingPhases(m, org, fs, v);
    ghost var after := m.meta;
    chainOut := out;
    ghost var tail;
    out, tail := FinallyDelete(org, out, containerId);
    seg := ChainTrace(parts) + tail;
    AppendAssoc(trace0, ChainTrace(parts), tail);
    ToolingRunOf(m, org, fs, v, before, fetched, after, parts, stopped, chainOut, containerId, tail, seg, out);
  }

  /** The flags of `dmc deploy` that select and shape a deploy. */
  datatype RunOptions = RunOptions(meta: bool, tests: bool, coverage: bool)

  /**
   * The files step of `runMetadataDeploy`: each selected path is checked for
   * existence; an existing one is added to the archive (a directory as a
   * directory) and a missing one is recorded.
   */
  method AddMetadataFiles(paths: seq<string>, fs: LocalFiles) returns (entries: seq<ArchiveEntry>, missing: seq<string>)
    ensures entries == ArchiveEntries(paths, fs)
    ensures missing == MissingPaths(paths, fs)
  {
    entries, missing := [], [];
    var i := 0;
    while i < |paths|
      invariant 0 <= i <= |paths|
      invariant entries == ArchiveEntries(paths[..i], fs)
      invariant missing == MissingPaths(paths[..i], fs)
    {
      var p := paths[i];
      ArchiveEntriesSnoc(paths[..i], p, fs);
      MissingPathsSnoc(paths[..i], p, fs);
      assert paths[..i] + [p] == paths[..i + 1];
      if p in fs.existing {
        entries := entries + [EntryFor(p, fs)];
      } else {
        missing := missing + [p];
      }
      i := i + 1;
    }
    assert paths[..i] == paths;
  }

  /**
   * The deployer of one process: `timesBeingDeployed` keeps a second run
   * from starting while one is in progress. Here the guard is cleared on
   * every settled exit of a run; it stays set while a deploy is pending.
   */
  class Deployer {
    var timesBeingDeployed: nat

    constructor ()
      ensures timesBeingDeployed == 0
    {
      timesBeingDeployed := 0;
    }

    /**
     * `runToolingDeploy`: nothing while a run is in progress; otherwise the
     * guard is set, the phases run in order, and once the chain has settled
     * the container, when one was obtained, is deleted as the last call (a
     * failed delete rejects the run) and the guard is cleared.
     */
    method RunToolingDeploy(m: MetadataMap, org: Org, fs: LocalFiles)
      returns (out: Outcome, containerId: string, ghost seg: seq<Exchange>,
               ghost parts: seq<seq<Exchange>>, ghost stopped: nat, ghost chainOut: Outcome,
               ghost before: Table, ghost fetched: Table, ghost after: Table)
      requires m.Valid()
      modifies this, m, org
      ensures m.Valid()
      ensures before == old(m.meta) && after == m.meta
      ensures org.trace == old(org.trace) + seg
      ensures old(timesBeingDeployed) > 0 ==>
        out == Resolved && seg == [] && m.meta == old(m.meta) && timesBeingDeployed == old(timesBeingDeployed)
      ensures old(timesBeingDeployed) == 0 ==>
        && ToolingRun(m, org, fs, Intended, before, fetched, after, parts, stopped, chainOut, containerId, seg, out)
        && (out != Pending ==> timesBeingDeployed == 0)
        && (out == Pending ==> timesBeingDeployed == 1)
    {
      if timesBeingDeployed > 0 {
        return Resolved, "", [], [], 0, Resolved, m.meta, m.meta, m.meta;
      }
      before := m.meta;
      timesBeingDeployed := 1;
      out, containerId, seg, parts, stopped, chainOut, fetched := ToolingWithFinally(m, org, fs, Intended);
      after := m.meta;
      timesBeingDeployed := if out != Pending then 0 else 1;
    }

    /**
     * `runMetadataDeploy`: nothing while a run is in progress; otherwise the
     * manifest and the selected files are archived and deployed in one call
     * with details, rollback on error and the tests option; the details of
     * the reply, when present, are rendered. A missing file rejects the run
     * before anything is deployed.
     */
    method RunMetadataDeploy(m: MetadataMap, org: Org, fs: LocalFiles, opts: RunOptions)
      returns (out: Outcome, report: Option<Report.Report>, ghost seg: seq<Exchange>)
      modifies this, org
      ensures org.trace == old(org.trace) + seg
      ensures old(timesBeingDeployed) > 0 ==>
        out == Resolved && report == None && seg == [] && timesBeingDeployed == old(timesBeingDeployed)
      ensures old(timesBeingDeployed) == 0 ==> timesBeingDeployed == 0 && out != Pending
      ensures old(timesBeingDeployed) == 0 ==>
        match ArchivePlan(m.filePaths, fs, m.packageXml)
        case Failure(e) => out == Rejected(e) && report == None && seg == []
        case Success(entries) =>
          && |seg| == 1
          && seg[0].call == DeployArchive(entries, DeployOptions(true, true, opts.tests))
          && (out == Resolved <==> seg[0].reply.Ok?)
          && (seg[0].reply.TransportError? ==> out == Rejected(Remote(seg[0].reply.message)))
          && report == Report.ReportOf(seg[0].reply.details, opts.coverage)
    {
      if timesBeingDeployed > 0 {
        return Resolved, None, [];
      }
      timesBeingDeployed := 1;
      var entries, missing := AddMetadataFiles(m.filePaths, fs);
      if missing != [] {
        timesBeingDeployed := 0;
        return Rejected(Reason("cannot deploy - missing files")), None, [];
      }
      var call := DeployArchive([ManifestEntry(ManifestPath, m.packageXml)] + entries, DeployOptions(true, true, opts.tests));
      var reply := org.Send(call);
      seg := [Exchange(call, reply)];
      report := Report.LogDetails(reply.details, opts.coverage);
      out := if reply.Ok? then Resolved else Rejected(Remote(reply.message));
      timesBeingDeployed := 0;
    }

    /**
     * `runToolingDeploy` as written: the guard is raised by the first `then`
     * and cleared only by the `finally`, and only when a container id was
     * obtained; the status callbacks are read as written, so an `Errored`
     * status or a failed submission throws, the chain never settles, and
     * neither the delete nor the clearing of the guard happens.
     */
    method RunToolingDeployAsWritten(m: MetadataMap, org: Org, fs: LocalFiles)
      returns (out: Outcome, containerId: string, ghost seg: seq<Exchange>,
               ghost parts: seq<seq<Exchange>>, ghost stopped: nat, ghost chainOut: Outcome,
               ghost before: Table, ghost fetched: Table, ghost after: Table)
      requires m.Valid()
      modifies this, m, org
      ensures m.Valid()
      ensures before == old(m.meta) && after == m.meta
      ensures org.trace == old(org.trace) + seg
      ensures old(timesBeingDeployed) > 0 ==>
        out == Resolved && seg == [] && m.meta == old(m.meta) && timesBeingDeployed == old(timesBeingDeployed)
      ensures old(timesBeingDeployed) == 0 ==>
        && ToolingRun(m, org, fs, AsWritten, before, fetched, after, parts, stopped, chainOut, containerId, seg, out)
        && timesBeingDeployed == if out != Pending && containerId != "" then 0 else 1
    {
      if timesBeingDeployed > 0 {
        return Resolved, "", [], [], 0, Resolved, m.meta, m.meta, m.meta;
      }
      before := m.meta;
      timesBeingDeployed := timesBeingDeployed + 1;
      out, containerId, seg, parts, stopped, chainOut, fetched := ToolingWithFinally(m, org, fs, AsWritten);
      after := m.meta;
      if out != Pending && containerId != "" {
        timesBeingDeployed := 0;
      }
    }

    /**
     * `runMetadataDeploy` as written, with the `then` of `run` that follows
     * it: a missing file leaves the archive unfinalised, so the deploy never
     * settles; `run` raises the guard as soon as the deploy has started, and
     * only a successful deploy clears it.
     */
    method RunMetadataDeployAsWritten(m: MetadataMap, org: Org, fs: LocalFiles, opts: RunOptions)
      returns (out: Outcome, report: Option<Report.Report>, ghost seg: seq<Exchange>)
      modifies this, org
      ensures org.trace == old(org.trace) + seg
      ensures old(timesBeingDeployed) > 0 ==>
        out == Resolved && report == None && seg == [] && timesBeingDeployed == old(timesBeingDeployed)
      ensures old(timesBeingDeployed) == 0 ==>
        match ArchivePlanAsWritten(m.filePaths, fs, m.packageXml)
        case None => out == Pending && report == None && seg == [] && timesBeingDeployed == 1
        case Some(entries) =>
          && |seg| == 1
          && seg[0].call == DeployArchive(entries, DeployOptions(true, true, opts.tests))
          && (out == Resolved <==> seg[0].reply.Ok?)
          && report == Report.ReportOf(seg[0].reply.details, opts.coverage)
          && timesBeingDeployed == if out == Resolved then 0 else 1
    {
      if timesBeingDeployed > 0 {
        return Resolved, None, [];
      }
      var entries, missing := AddMetadataFiles(m.filePaths, fs);
      timesBeingDeployed := 1;
      if missing != [] {
        return Pending, None, [];
      }
      var call := DeployArchive([ManifestEntry(ManifestPath, m.packageXml)] + entries, DeployOptions(true, true, opts.tests));
      var reply := org.Send(call);
      seg := [Exchange(call, reply)];
      report := Report.LogDetails(reply.details, opts.coverage);
      out := if reply.Ok? then Resolved else Rejected(Remote(reply.message));
      if out == Resolved {
        timesBeingDeployed := 0;
      }
    }

    /**
     * `run`: nothing while a run is in progress; no local files is an
     * error; no selected paths ends the run; otherwise the Tooling pipeline
     * runs unless the map needs a full deploy, `--meta` or `--tests` is
     * given, or `deploy_mode` is "metadata".
     */
    method Run(m: MetadataMap, org: Org, fs: LocalFiles, opts: RunOptions, filesFound: nat, deployModeSetting: string)
      returns (out: Outcome, ghost seg: seq<Exchange>, ghost parts: seq<seq<Exchange>>, ghost stopped: nat,
               ghost chainOut: Outcome, ghost containerId: string, ghost before: Table, ghost fetched: Table, ghost after: Table)
      requires m.Valid()
      modifies this, m, org
      ensures org.trace == old(org.trace) + seg
      ensures before == old(m.meta) && after == m.meta
      ensures old(timesBeingDeployed) > 0 ==> out == Resolved && seg == [] && timesBeingDeployed == old(timesBeingDeployed)
      ensures old(timesBeingDeployed) == 0 && filesFound == 0 ==>
        out == Rejected(Reason("no files for deployment found")) && seg == []
      ensures old(timesBeingDeployed) == 0 && filesFound > 0 && m.filePaths == [] ==> out == Resolved && seg == []
      ensures old(timesBeingDeployed) == 0 && filesFound > 0 && m.filePaths != [] ==>
        && (SelectBackend(m.requiresMetadata, opts.meta, deployModeSetting, opts.tests) == Tooling ==>
              ToolingRun(m, org, fs, Intended, before, fetched, after, parts, stopped, chainOut, containerId, seg, out))
        && (SelectBackend(m.requiresMetadata, opts.meta, deployModeSetting, opts.tests) == Metadata ==>
              |seg| <= 1 && forall i :: 0 <= i < |seg| ==> seg[i].call.DeployArchive?)
        && (out != Pending ==> timesBeingDeployed == 0)
    {
      before, fetched, after := m.meta, m.meta, m.meta;
      parts, stopped, chainOut, containerId := [], 0, Resolved, "";
      if timesBeingDeployed > 0 {
        return Resolved, [], parts, stopped, chainOut, containerId, before, fetched, after;
      }
      if filesFound == 0 {
        return Rejected(Reason("no files for deployment found")), [], parts, stopped, chainOut, containerId, before, fetched, after;
      }
      if m.filePaths == [] {
        return Resolved, [], parts, stopped, chainOut, containerId, before, fetched, after;
      }
      match SelectBackend(m.requiresMetadata, opts.meta, deployModeSetting, opts.tests)
      case Tooling =>
        var id;
        out, id, seg, parts, stopped, chainOut, before, fetched, after := RunToolingDeploy(m, org, fs);
        containerId := id;
      case Metadata =>
        var report;
        out, report, seg := RunMetadataDeploy(m, org, fs, opts);
        after := m.meta;
    }
  }
  /**
   * As written, a Tooling run whose fetch of the ids fails leaves the guard
   * raised, so the next run in the same process makes no call at all.
   */
  method FailedFetchBlocksNextRunAsWritten(d: Deployer, m: MetadataMap, org: Org, fs: LocalFiles)
    returns (second: Outcome, ghost first: seq<Exchange>, ghost next: seq<Exchange>)
    requires m.Valid() && d.timesBeingDeployed == 0
    modifies d, m, org
    ensures |first| > 0 && first[0].call == FetchIds
    ensures first[0].reply.TransportError? ==>
      |first| == 1 && second == Resolved && next == [] && d.timesBeingDeployed == 1
  {
    var out, containerId;
    ghost var parts, stopped, chainOut, before, fetched, after;
    out, containerId, first, parts, stopped, chainOut, before, fetched, after := d.RunToolingDeployAsWritten(m, org, fs);
    second, containerId, next, parts, stopped, chainOut, before, fetched, after := d.RunToolingDeployAsWritten(m, org, fs);
  }

  /**
   * With the guard cleared on every settled exit, the run after a failed
   * fetch starts again from the fetch.
   */
  method FailedFetchThenNextRun(d: Deployer, m: MetadataMap, org: Org, fs: LocalFiles)
    returns (ghost first: seq<Exchange>, ghost next: seq<Exchange>)
    requires m.Valid() && d.timesBeingDeployed == 0
    modifies d, m, org
    ensures |first| > 0 && first[0].call == FetchIds
    ensures first[0].reply.TransportError? ==> |first| == 1 && |next| > 0 && next[0].call == FetchIds
  {
    var out, containerId;
    ghost var parts, stopped, chainOut, before, fetched, after;
    out, containerId, first, parts, stopped, chainOut, before, fetched, after := d.RunToolingDeploy(m, org, fs);
    out, containerId, next, parts, stopped, chainOut, before, fetched, after := d.RunToolingDeploy(m, org, fs);
  }
}
