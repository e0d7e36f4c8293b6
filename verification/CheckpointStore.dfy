/** CheckpointBundleStore: a bundle becomes visible through one directory rename.

    Files written into the hidden staging directory are never read, so only the rename is a
    step. The artifact's digest is an input: its bytes are not modelled. */
module CheckpointStore {
  import opened Records
  import opened ControlStore

  datatype LineageManifest = LineageManifest(
    checkpoint: Id, run: Id, iteration: nat, model: Id, parent: Option<Id>,
    score: real, status: CheckpointStatus, artifact: string, tx: Id, createdAt: int)

  datatype CheckpointPayload = CheckpointPayload(
    checkpoint: Id, run: Id, iteration: nat, model: Id, parent: Option<Id>, score: real,
    status: CheckpointStatus, artifact: Option<string>, tx: Id, decision: Option<Id>, action: Option<Action>)

  datatype BundleManifest = BundleManifest(
    checkpoint: Id, run: Id, iteration: nat, artifact: string,
    payload: Sha<CheckpointPayload>, lineage: Sha<LineageManifest>, tx: Id, createdAt: int)

  /** SHA-256 of a bundle manifest. */
  datatype BundleDigest = BundleDigest(of: BundleManifest)

  datatype Bundle = Bundle(manifest: BundleManifest, payload: CheckpointPayload, lineage: LineageManifest)

  datatype BundleRequest = BundleRequest(
    checkpoint: Id, run: Id, iteration: nat, payload: CheckpointPayload, lineage: LineageManifest,
    artifact: string, tx: Id, createdAt: int)

  function BundleOf(req: BundleRequest): Bundle {
    Bundle(
      BundleManifest(req.checkpoint, req.run, req.iteration, req.artifact,
                     Sha256(req.payload), Sha256(req.lineage), req.tx, req.createdAt),
      req.payload, req.lineage)
  }

  predicate LineageFits(l: LineageManifest, checkpoint: Id, iteration: nat) {
    l.checkpoint == checkpoint && l.parent != Some(checkpoint) && l.iteration == iteration
  }

  ghost predicate TransactionFits(control: Disk, tx: Id, run: Id, iteration: nat) {
    var t := LoadedTransaction(control, tx);
    t.Ok? && t.value.run == run && t.value.iteration == iteration
  }

  /** Everything `load` re-checks about one bundle directory. */
  ghost predicate BundleLoads(control: Disk, b: Bundle, checkpoint: Id, artifact: Option<string>) {
    && b.manifest.checkpoint == checkpoint
    && b.manifest.payload == Sha256(b.payload)
    && b.manifest.lineage == Sha256(b.lineage)
    && b.payload.checkpoint == checkpoint
    && LineageFits(b.lineage, checkpoint, b.manifest.iteration)
    && TransactionFits(control, b.manifest.tx, b.manifest.run, b.manifest.iteration)
    && (artifact.Some? ==> artifact.value == b.manifest.artifact)
  }

  ghost function LoadedBundle(control: Disk, bundles: map<Id, Bundle>, checkpoint: Id, artifact: Option<string>): Result<Bundle> {
    if checkpoint in bundles && BundleLoads(control, bundles[checkpoint], checkpoint, artifact) then
      Ok(bundles[checkpoint])
    else
      Err(IntegrityError)
  }

  /** The checks `commit` makes before it takes its lock. */
  ghost predicate MayBundle(control: Disk, req: BundleRequest) {
    && TransactionFits(control, req.tx, req.run, req.iteration)
    && req.payload.checkpoint == req.checkpoint
    && LineageFits(req.lineage, req.checkpoint, req.iteration)
    && (req.payload.artifact.Some? ==> req.payload.artifact.value == req.artifact)
  }

  /** Exactly when an uncrashed `commit` on a free lock succeeds. */
  ghost predicate BundleCommits(control: Disk, bundles: map<Id, Bundle>, req: BundleRequest) {
    && MayBundle(control, req)
    && (req.checkpoint in bundles ==> bundles[req.checkpoint] == BundleOf(req))
  }

  lemma PublishedBundleLoads(control: Disk, req: BundleRequest)
    requires MayBundle(control, req)
    ensures BundleLoads(control, BundleOf(req), req.checkpoint, Some(req.artifact))
  {
  }

  /** A whole bundle: its three files are about one checkpoint and agree, lineage never names the checkpoint
      its own parent, and its transaction is there with its run and iteration. */
  ghost predicate Whole(control: Disk, b: Bundle, checkpoint: Id) {
    && b.manifest.checkpoint == checkpoint && b.payload.checkpoint == checkpoint && b.lineage.checkpoint == checkpoint
    && b.manifest.payload == Sha256(b.payload) && b.manifest.lineage == Sha256(b.lineage)
    && b.lineage.iteration == b.manifest.iteration
    && (b.lineage.parent.Some? ==> b.lineage.parent.value != checkpoint)
    && TransactionStands(control, b.manifest.tx, b.manifest.run, b.manifest.iteration)
  }

  /** Exactly which bundles load. */
  lemma BundleLoadsIff(control: Disk, b: Bundle, checkpoint: Id, artifact: Option<string>)
    ensures BundleLoads(control, b, checkpoint, artifact) <==>
      Whole(control, b, checkpoint) && (artifact == None || artifact == Some(b.manifest.artifact))
  {
    hide TransactionStands, LoadedTransaction;
    LoadsIffStands(control, b.manifest.tx, b.manifest.run, b.manifest.iteration);
  }

  class CheckpointBundleStore {
    const control: ControlRecordStore
    var bundles: map<Id, Bundle>
    var locked: bool

    constructor (control: ControlRecordStore)
      ensures this.control == control && bundles == map[] && !locked
    {
      this.control := control;
      bundles, locked := map[], false;
    }

    method Load(checkpoint: Id, artifact: Option<string>) returns (r: Result<Bundle>)
      ensures r == LoadedBundle(control.View(), bundles, checkpoint, artifact)
      ensures r.Ok? <==>
        && checkpoint in bundles && Whole(control.View(), bundles[checkpoint], checkpoint)
        && (artifact == None || artifact == Some(bundles[checkpoint].manifest.artifact))
    {
      hide Whole;
      if checkpoint in bundles { BundleLoadsIff(control.View(), bundles[checkpoint], checkpoint, artifact); }
      if checkpoint !in bundles {
        return Err(IntegrityError);
      }
      var b := bundles[checkpoint];
      var m := b.manifest;
      if m.checkpoint != checkpoint || m.payload != Sha256(b.payload) || m.lineage != Sha256(b.lineage) {
        return Err(IntegrityError);
      }
      if b.payload.checkpoint != checkpoint || !LineageFits(b.lineage, checkpoint, m.iteration) {
        return Err(IntegrityError);
      }
      var t := control.LoadTransaction(m.tx);
      if t.Err? || t.value.run != m.run || t.value.iteration != m.iteration {
        return Err(IntegrityError);
      }
      if artifact.Some? && artifact.value != m.artifact {
        return Err(IntegrityError);
      }
      return Ok(b);
    }

    /** `commit`. The rename is the first durable write, releasing the lock the second. */
    method Commit(req: BundleRequest, crashAfter: nat) returns (out: Outcome<Bundle>)
      modifies this
      ensures out.Committed? ==>
        && !old(locked) && !locked && BundleCommits(control.View(), old(bundles), req)
        && out.value == BundleOf(req) && bundles == old(bundles)[req.checkpoint := BundleOf(req)]
      ensures out.Committed? ==>
        && out.value.payload == req.payload && out.value.lineage == req.lineage
        && out.value.manifest.artifact == req.artifact && out.value.manifest.createdAt == req.createdAt
        && out.value.manifest.tx == req.tx && out.value.manifest.run == req.run
        && Whole(control.View(), out.value, req.checkpoint)
      ensures out.Failed? ==>
        && (old(locked) || !BundleCommits(control.View(), old(bundles), req))
        && locked == old(locked) && bundles == old(bundles)
      ensures out.Crashed? ==>
        && !old(locked) && locked && crashAfter < 2 && req.checkpoint !in old(bundles)
        && MayBundle(control.View(), req)
        && bundles == if crashAfter == 0 then old(bundles) else old(bundles)[req.checkpoint := BundleOf(req)]
    {
      var t := control.LoadTransaction(req.tx);
      if t.Err? || t.value.run != req.run || t.value.iteration != req.iteration {
        return Failed(IntegrityError);
      }
      if req.payload.checkpoint != req.checkpoint {
        return Failed(ContractError);
      }
      if !LineageFits(req.lineage, req.checkpoint, req.iteration) {
        return Failed(IntegrityError);
      }
      if req.payload.artifact.Some? && req.payload.artifact.value != req.artifact {
        return Failed(IntegrityError);
      }
      if locked {
        return Failed(LockTimeout);
      }
      PublishedBundleLoads(control.View(), req);
      BundleLoadsIff(control.View(), BundleOf(req), req.checkpoint, Some(req.artifact));
      hide Whole;
      if req.checkpoint in bundles {
        var existing := Load(req.checkpoint, Some(req.artifact));
        if existing.Err? {
          return Failed(IntegrityError);
        }
        if existing.value != BundleOf(req) {
          return Failed(ConflictError);
        }
        return Committed(existing.value);
      }
      locked := true;
      if crashAfter == 0 {
        return Crashed;
      }
      bundles := bundles[req.checkpoint := BundleOf(req)];
      if crashAfter == 1 {
        return Crashed;
      }
      locked := false;
      var loaded := Load(req.checkpoint, Some(req.artifact));
      return Committed(loaded.value);
    }
  }
}
