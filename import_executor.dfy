/** The import executor: runs or cancels one import of a dataset into a
    destination schema, records the outcome on the import exactly once, and
    leaves an audit trail of events and notifications.

    Copying, the schema refresh, deletion of the source dataset or of the
    destination workspace, the running state of the pipe processes, the
    clock and the generated stream key are inputs: they are decided by
    databases, the file system and other code. */
module ImportExecution {
  import opened Wrappers
  import opened Sequences
  import opened PipeNaming

  /** Where the source dataset lives. */
  datatype SourceKind = GreenplumTable(databaseId: nat) | OracleTable

  datatype SourceDataset = SourceDataset(id: nat, scopedName: string, kind: SourceKind)

  /** The fields of an import that neither `run` nor `cancel` changes.
      `workspaceName` is `None` for an import into a schema rather than
      into a workspace sandbox. */
  datatype ImportInfo = ImportInfo(
    id: nat,
    createdAt: nat,
    source: SourceDataset,
    workspaceName: Option<string>,
    destinationDatabaseId: nat,
    toTable: string,
    scheduleId: Option<nat>,
    sampleCount: nat)

  /** What an import-created event refers to: the import itself, or the
      schedule that triggered it. */
  datatype Reference = ImportRef(id: nat) | ScheduleRef(id: nat)

  datatype Event =
    | ImportCreated(reference: Reference, dataset: Option<nat>)
    | ImportSuccess(importId: nat, dataset: Option<nat>)
    | ImportFailed(importId: nat, message: string)

  datatype Notification = ImportPassedNote(importId: nat) | ImportFailedNote(importId: nat, message: string)

  datatype Copier = TableCopier | CrossDatabaseTableCopier | OracleTableCopier

  /** The URL an authorised-stream copier reads the source rows from. */
  datatype StreamUrl = StreamUrl(datasetId: nat, rowLimit: nat, host: string, port: nat, streamKey: string)

  /** One construction and start of a copier, with the arguments it was given. */
  datatype CopierStart = CopierStart(copier: Copier, pipeName: string, streamUrl: Option<StreamUrl>)

  datatype CopyOutcome = Copied | CopyRaised(message: string)

  /** A table found in the destination schema after refreshing it. */
  datatype Table = Table(id: nat, name: string)

  datatype Refresh = RefreshRaised | Refreshed(tables: seq<Table>)

  datatype Side = SourceConnection | DestinationConnection

  datatype Kill = Kill(side: Side, pattern: string)

  /** What the outside world decides during one `run`. */
  datatype RunInputs = RunInputs(
    sourceDeleted: bool,
    workspaceDeleted: bool,
    publicUrl: Option<string>,
    serverPort: nat,
    generatedKey: string,
    copy: CopyOutcome,
    refresh: Refresh)

  datatype Verdict = Passed | Failed(message: string)

  datatype RunResult = Completed | Raised(message: string)

  /** The outcome fields of an import. */
  datatype Status = Status(success: Option<bool>, finishedAt: Option<int>, destinationDatasetId: Option<nat>)

  datatype Log = Log(events: seq<Event>, notifications: seq<Notification>)

  datatype Settled = Settled(status: Status, log: Log)

  const PublicUrlMissing := "Please set public_url in chorus.properties"

  function SourceGoneMessage(scopedName: string): string {
    "Original source dataset " + scopedName + " has been deleted"
  }

  function WorkspaceGoneMessage(name: string): string {
    "Destination workspace " + name + " has been deleted"
  }

  /** The copier strategy for a source and a destination database. */
  function ChooseCopier(kind: SourceKind, destinationDatabaseId: nat): (c: Copier)
    ensures c == OracleTableCopier <==> kind.OracleTable?
    ensures c == CrossDatabaseTableCopier <==> kind.GreenplumTable? && kind.databaseId != destinationDatabaseId
    ensures c == TableCopier <==> kind.GreenplumTable? && kind.databaseId == destinationDatabaseId
  {
    match kind
    case OracleTable => OracleTableCopier
    case GreenplumTable(db) => if db == destinationDatabaseId then TableCopier else CrossDatabaseTableCopier
  }

  /** The deletion checks `run` makes before touching anything: the error
      they raise, if any. */
  function GoneCheck(info: ImportInfo, inputs: RunInputs): (m: Option<string>)
    ensures inputs.sourceDeleted ==> m == Some(SourceGoneMessage(info.source.scopedName))
    ensures !inputs.sourceDeleted && inputs.workspaceDeleted && info.workspaceName.Some? ==>
              m == Some(WorkspaceGoneMessage(info.workspaceName.value))
    ensures m.None? <==> !inputs.sourceDeleted && !(inputs.workspaceDeleted && info.workspaceName.Some?)
  {
    if inputs.sourceDeleted then Some(SourceGoneMessage(info.source.scopedName))
    else if inputs.workspaceDeleted && info.workspaceName.Some? then Some(WorkspaceGoneMessage(info.workspaceName.value))
    else None
  }

  /** The copier `run` constructs and starts, or `None` when `run` fails
      before constructing one. */
  function Launch(info: ImportInfo, inputs: RunInputs): (start: Option<CopierStart>)
    ensures start.Some? ==> start.value.pipeName == PipeStem(info.createdAt, info.id)
    ensures start.Some? ==> start.value.copier == ChooseCopier(info.source.kind, info.destinationDatabaseId)
    ensures start.Some? <==> GoneCheck(info, inputs).None?
                             && (info.source.kind.OracleTable? ==> inputs.publicUrl.Some?)
    ensures start.Some? && start.value.copier == OracleTableCopier ==>
              start.value.streamUrl == Some(StreamUrl(info.source.id, info.sampleCount,
                                                      inputs.publicUrl.value, inputs.serverPort, inputs.generatedKey))
    ensures start.Some? && start.value.copier != OracleTableCopier ==> start.value.streamUrl.None?
  {
    if GoneCheck(info, inputs).Some? then None
    else
      var copier := ChooseCopier(info.source.kind, info.destinationDatabaseId);
      var pipe := PipeStem(info.createdAt, info.id);
      if copier == OracleTableCopier then
        match inputs.publicUrl
        case None => None
        case Some(host) =>
          Some(CopierStart(copier, pipe, Some(StreamUrl(info.source.id, info.sampleCount, host,
                                                        inputs.serverPort, inputs.generatedKey))))
      else Some(CopierStart(copier, pipe, None))
  }

  /** How `run` ends: the error of the first check that fails, or the
      copier's own outcome. */
  function RunVerdict(info: ImportInfo, inputs: RunInputs): (v: Verdict)
    ensures v == Passed <==> Launch(info, inputs).Some? && inputs.copy == Copied
    ensures GoneCheck(info, inputs).Some? ==> v == Failed(GoneCheck(info, inputs).value)
    ensures (GoneCheck(info, inputs).None? && info.source.kind.OracleTable? && inputs.publicUrl.None?)
              ==> v == Failed(PublicUrlMissing)
    ensures Launch(info, inputs).Some? && inputs.copy.CopyRaised? ==> v == Failed(inputs.copy.message)
  {
    match GoneCheck(info, inputs)
    case Some(m) => Failed(m)
    case None =>
      if Launch(info, inputs).None? then Failed(PublicUrlMissing)
      else match inputs.copy
        case Copied => Passed
        case CopyRaised(m) => Failed(m)
  }

  /** What `run` returns or raises for a verdict. */
  function Reported(v: Verdict): (r: RunResult)
    ensures r.Completed? <==> v.Passed?
    ensures v.Failed? ==> r == Raised(v.message)
  {
    match v
    case Passed => Completed
    case Failed(m) => Raised(m)
  }

  /** Whether `run` keeps the stream key it found: only when it fails for a
      missing public URL, which happens before any key is generated. */
  predicate KeepsStreamKey(info: ImportInfo, inputs: RunInputs) {
    GoneCheck(info, inputs).None? && Launch(info, inputs).None?
  }

  /** The reference an import's import-created event carries. */
  function CreatedReference(info: ImportInfo): (r: Reference)
    ensures r.ScheduleRef? <==> info.scheduleId.Some?
    ensures r.id == if info.scheduleId.Some? then info.scheduleId.value else info.id
  {
    if info.scheduleId.Some? then ScheduleRef(info.scheduleId.value) else ImportRef(info.id)
  }

  /** The id of the destination table found by name after the refresh;
      `None` when the refresh raised or no table has that name. */
  function ResolveDestination(refresh: Refresh, toTable: string): (ds: Option<nat>)
    ensures ds.None? <==> refresh.RefreshRaised? || forall j :: 0 <= j < |refresh.tables| ==> refresh.tables[j].name != toTable
    ensures ds.Some? ==> exists j :: 0 <= j < |refresh.tables| && refresh.tables[j] == Table(ds.value, toTable)
  {
    match refresh
    case RefreshRaised => None
    case Refreshed(tables) =>
      match FindFirst(tables, (t: Table) => t.name == toTable)
      case None => None
      case Some(j) => Some(tables[j].id)
  }

  predicate IsCreatedFor(e: Event, reference: Reference) {
    e.ImportCreated? && e.reference == reference
  }

  /** Attaches the destination dataset to the first import-created event
      for `reference`; nothing changes when there is no such event. */
  function LinkCreatedEvent(events: seq<Event>, reference: Reference, dataset: nat): (r: seq<Event>)
    ensures |r| == |events|
    ensures forall j :: 0 <= j < |events| && !IsCreatedFor(events[j], reference) ==> r[j] == events[j]
    ensures forall j :: 0 <= j < |events| && IsCreatedFor(events[j], reference) ==>
              r[j] == events[j] || r[j] == ImportCreated(reference, Some(dataset))
    ensures (exists j :: 0 <= j < |events| && IsCreatedFor(events[j], reference)) ==>
              exists j :: 0 <= j < |events| && IsCreatedFor(events[j], reference) && r[j] == ImportCreated(reference, Some(dataset))
  {
    match FindFirst(events, (e: Event) => IsCreatedFor(e, reference))
    case None => events
    case Some(j) => events[j := ImportCreated(reference, Some(dataset))]
  }

  /** Finalisation: records a verdict on an import that has none yet, with
      exactly one terminal event and one notification; an import that
      already has a verdict is left as it is. */
  function Settle(info: ImportInfo, st: Status, log: Log, v: Verdict, refresh: Refresh, now: int): (r: Settled)
    ensures st.success.Some? ==> r == Settled(st, log)
    ensures r.status.success.Some?
    ensures st.success.None? ==> r.status.success == Some(v.Passed?) && r.status.finishedAt == Some(now)
    ensures st.success.None? && v.Passed? ==>
              r.status.destinationDatasetId == ResolveDestination(refresh, info.toTable)
              && |r.log.events| == |log.events| + 1
              && r.log.events[|log.events|] == ImportSuccess(info.id, r.status.destinationDatasetId)
              && (forall j :: 0 <= j < |log.events| && !IsCreatedFor(log.events[j], CreatedReference(info)) ==>
                    r.log.events[j] == log.events[j])
              && r.log.notifications == log.notifications + [ImportPassedNote(info.id)]
    ensures st.success.None? && v.Passed? && ResolveDestination(refresh, info.toTable).None? ==>
              r.log.events == log.events + [ImportSuccess(info.id, None)]
    ensures st.success.None? && v.Passed? && ResolveDestination(refresh, info.toTable).Some?
            && (exists j :: 0 <= j < |log.events| && IsCreatedFor(log.events[j], CreatedReference(info))) ==>
              exists j :: 0 <= j < |log.events| && IsCreatedFor(log.events[j], CreatedReference(info))
                          && r.log.events[j] == ImportCreated(CreatedReference(info), ResolveDestination(refresh, info.toTable))
    ensures st.success.None? && v.Failed? ==>
              r.log.events == log.events + [ImportFailed(info.id, v.message)]
              && r.log.notifications == log.notifications + [ImportFailedNote(info.id, v.message)]
  {
    if st.success.Some? then Settled(st, log)
    else match v
      case Passed =>
        var ds := ResolveDestination(refresh, info.toTable);
        var linked := if ds.Some? then LinkCreatedEvent(log.events, CreatedReference(info), ds.value) else log.events;
        Settled(Status(Some(true), Some(now), ds),
                Log(linked + [ImportSuccess(info.id, ds)], log.notifications + [ImportPassedNote(info.id)]))
      case Failed(m) =>
        Settled(Status(Some(false), Some(now), st.destinationDatasetId),
                Log(log.events + [ImportFailed(info.id, m)], log.notifications + [ImportFailedNote(info.id, m)]))
  }

  predicate IsTerminalFor(e: Event, importId: nat) {
    (e.ImportSuccess? && e.importId == importId) || (e.ImportFailed? && e.importId == importId)
  }

  /** The number of success and failure events about one import. */
  function TerminalEvents(events: seq<Event>, importId: nat): nat {
    if events == [] then 0
    else TerminalEvents(events[..|events| - 1], importId) + (if IsTerminalFor(events[|events| - 1], importId) then 1 else 0)
  }

  lemma {:induction false} TerminalEventsAppend(events: seq<Event>, more: seq<Event>, importId: nat)
    ensures TerminalEvents(events + more, importId) == TerminalEvents(events, importId) + TerminalEvents(more, importId)
  {
    if more != [] {
      var all := events + more;
      assert all[..|all| - 1] == events + more[..|more| - 1];
      TerminalEventsAppend(events, more[..|more| - 1], importId);
    } else {
      assert events + more == events;
    }
  }

  /** Rewriting events that are not terminal events keeps the count of terminal events. */
  lemma {:induction false} TerminalEventsUnchanged(a: seq<Event>, b: seq<Event>, importId: nat)
    requires |a| == |b|
    requires forall j :: 0 <= j < |a| ==> (IsTerminalFor(a[j], importId) <==> IsTerminalFor(b[j], importId))
    ensures TerminalEvents(a, importId) == TerminalEvents(b, importId)
  {
    if a != [] {
      TerminalEventsUnchanged(a[..|a| - 1], b[..|b| - 1], importId);
    }
  }

  /** Exactly-once finalisation: settling an import without a verdict adds
      exactly one terminal event about it; settling one with a verdict adds none. */
  lemma SettleAddsOneTerminalEvent(info: ImportInfo, st: Status, log: Log, v: Verdict, refresh: Refresh, now: int)
    ensures TerminalEvents(Settle(info, st, log, v, refresh, now).log.events, info.id)
            == TerminalEvents(log.events, info.id) + (if st.success.None? then 1 else 0)
  {
    var r := Settle(info, st, log, v, refresh, now);
    if st.success.None? {
      var ds := ResolveDestination(refresh, info.toTable);
      var linked := if ds.Some? then LinkCreatedEvent(log.events, CreatedReference(info), ds.value) else log.events;
      TerminalEventsUnchanged(log.events, linked, info.id);
      var last := if v.Passed? then ImportSuccess(info.id, ds) else ImportFailed(info.id, v.message);
      if v.Passed? {
        assert r.log.events == linked + [last];
      } else {
        assert r.log.events == log.events + [last];
      }
      TerminalEventsAppend(linked, [last], info.id);
      assert TerminalEvents([last], info.id) == TerminalEvents([], info.id) + 1 by {
        assert [last][..0] == [];
      }
    }
  }

  /** A second finalisation, by a second `run` or by a `cancel` racing with
      `run`, changes nothing whatever its verdict. */
  lemma SettleIdempotent(info: ImportInfo, st: Status, log: Log, v1: Verdict, v2: Verdict,
                         refresh1: Refresh, refresh2: Refresh, now1: int, now2: int)
    ensures var first := Settle(info, st, log, v1, refresh1, now1);
            Settle(info, first.status, first.log, v2, refresh2, now2) == first
  {
  }

  /** The persistent import record: its fixed description and its outcome fields. */
  class Import {
    const info: ImportInfo
    var success: Option<bool>
    var startedAt: Option<int>
    var finishedAt: Option<int>
    var destinationDatasetId: Option<nat>
    var streamKey: Option<string>

    /** A new import, not yet run. */
    constructor (info: ImportInfo)
      ensures this.info == info
      ensures success.None? && startedAt.None? && finishedAt.None? && destinationDatasetId.None? && streamKey.None?
    {
      this.info := info;
      success, startedAt, finishedAt, destinationDatasetId, streamKey := None, None, None, None, None;
    }

    function Outcome(): Status
      reads this
    {
      Status(success, finishedAt, destinationDatasetId)
    }
  }

  /** Runs and cancels one import against the event store, the notification
      store, the kill commands sent to the two connections, the copiers
      started, and the files in the pipe data directory. */
  class ImportExecutor {
    const job: Import
    var events: seq<Event>
    var notifications: seq<Notification>
    var copierStarts: seq<CopierStart>
    var kills: seq<Kill>
    var dataDir: set<string>

    constructor (job: Import, events: seq<Event>, notifications: seq<Notification>, dataDir: set<string>)
      ensures this.job == job
      ensures this.events == events && this.notifications == notifications && this.dataDir == dataDir
      ensures copierStarts == [] && kills == []
    {
      this.job := job;
      this.events, this.notifications, this.dataDir := events, notifications, dataDir;
      copierStarts, kills := [], [];
    }

    function Trail(): Log
      reads this
    {
      Log(events, notifications)
    }

    /** Records a verdict unless the import already has one. */
    method Finalize(v: Verdict, refresh: Refresh, now: int)
      modifies this, job
      ensures Settled(job.Outcome(), Trail()) == Settle(job.info, old(job.Outcome()), old(Trail()), v, refresh, now)
      ensures copierStarts == old(copierStarts) && kills == old(kills) && dataDir == old(dataDir)
      ensures job.startedAt == old(job.startedAt) && job.streamKey == old(job.streamKey)
    {
      var r := Settle(job.info, job.Outcome(), Trail(), v, refresh, now);
      job.success, job.finishedAt, job.destinationDatasetId := r.status.success, r.status.finishedAt, r.status.destinationDatasetId;
      events, notifications := r.log.events, r.log.notifications;
    }

    /** `ImportExecutor#run`: checks that the source dataset and the
        destination workspace still exist, starts the copier the topology
        calls for and settles the import with the outcome; every failure is
        raised again to the caller. The stream key is cleared on every exit
        but a missing public URL, which fails before any key is generated. */
    method Run(inputs: RunInputs, now: int) returns (r: RunResult)
      modifies this, job
      ensures r == Reported(RunVerdict(job.info, inputs))
      ensures Settled(job.Outcome(), Trail())
              == Settle(job.info, old(job.Outcome()), old(Trail()),
                                        RunVerdict(job.info, inputs), inputs.refresh, now)
      ensures copierStarts == old(copierStarts) + (match Launch(job.info, inputs)
                                                   case Some(start) => [start]
                                                   case None => [])
      ensures job.startedAt == if GoneCheck(job.info, inputs).None? then Some(now) else old(job.startedAt)
      ensures job.streamKey == if KeepsStreamKey(job.info, inputs) then old(job.streamKey) else None
      ensures kills == old(kills) && dataDir == old(dataDir)
    {
      var info := job.info;
      var keepKey := false;
      if inputs.sourceDeleted {
        r := Raised(SourceGoneMessage(info.source.scopedName));
      } else if inputs.workspaceDeleted && info.workspaceName.Some? {
        r := Raised(WorkspaceGoneMessage(info.workspaceName.value));
      } else {
        job.startedAt := Some(now);
        var copier := ChooseCopier(info.source.kind, info.destinationDatabaseId);
        var url: Option<StreamUrl> := None;
        if copier == OracleTableCopier {
          if inputs.publicUrl.None? {
            r := Raised(PublicUrlMissing);
            keepKey := true;
          } else {
            job.streamKey := Some(inputs.generatedKey);
            url := Some(StreamUrl(info.source.id, info.sampleCount, inputs.publicUrl.value,
                                  inputs.serverPort, job.streamKey.value));
          }
        }
        if copier != OracleTableCopier || inputs.publicUrl.Some? {
          copierStarts := copierStarts + [CopierStart(copier, PipeStem(info.createdAt, info.id), url)];
          r := match inputs.copy
               case Copied => Completed
               case CopyRaised(m) => Raised(m);
        }
      }
      var v := if r.Completed? then Passed else Failed(r.message);
      Finalize(v, inputs.refresh, now);
      if !keepKey {
        job.streamKey := None;
      }
    }

    /** `ImportExecutor.run(id)`: an import that already has a verdict is
        skipped and nothing changes; otherwise it is run. */
    method RunIfPending(inputs: RunInputs, now: int) returns (r: Option<RunResult>)
      modifies this, job
      ensures old(job.success).Some? ==> r.None? && unchanged(this, job)
      ensures old(job.success).None? ==> r == Some(Reported(RunVerdict(job.info, inputs)))
      ensures old(job.success).None? ==>
                Settled(job.Outcome(), Trail())
                == Settle(job.info, old(job.Outcome()), old(Trail()),
                                          RunVerdict(job.info, inputs), inputs.refresh, now)
      ensures old(job.success).None? ==>
                copierStarts == old(copierStarts) + (match Launch(job.info, inputs)
                                                     case Some(start) => [start]
                                                     case None => [])
      ensures old(job.success).None? ==>
                job.startedAt == if GoneCheck(job.info, inputs).None? then Some(now) else old(job.startedAt)
      ensures old(job.success).None? ==>
                job.streamKey == if KeepsStreamKey(job.info, inputs) then old(job.streamKey) else None
      ensures kills == old(kills) && dataDir == old(dataDir)
    {
      if job.success.Some? {
        r := None;
      } else {
        var result := Run(inputs, now);
        r := Some(result);
      }
    }

    /** `ImportExecutor#cancel`: kills the write end on the source
        connection and the read end on the destination connection when
        they are running, removes the pipe files from the data directory,
        and settles the import as passed (`forceSuccess`) or failed with
        `message`. */
    method Cancel(forceSuccess: bool, message: string, sourceRunning: bool, destinationRunning: bool,
                  refresh: Refresh, now: int)
      modifies this, job
      ensures kills == old(kills)
                       + (if sourceRunning then [Kill(SourceConnection, KillPattern(PipeStem(job.info.createdAt, job.info.id), WriteEnd))] else [])
                       + (if destinationRunning then [Kill(DestinationConnection, KillPattern(PipeStem(job.info.createdAt, job.info.id), ReadEnd))] else [])
      ensures dataDir == old(dataDir) - set f | f in old(dataDir) && IsPipeFileOf(f, PipeStem(job.info.createdAt, job.info.id))
      ensures forall f :: f in dataDir ==> !IsPipeFileOf(f, PipeStem(job.info.createdAt, job.info.id))
      ensures Settled(job.Outcome(), Trail())
              == Settle(job.info, old(job.Outcome()), old(Trail()),
                                        if forceSuccess then Passed else Failed(message), refresh, now)
      ensures copierStarts == old(copierStarts)
      ensures job.startedAt == old(job.startedAt) && job.streamKey == old(job.streamKey)
    {
      var stem := PipeStem(job.info.createdAt, job.info.id);
      if sourceRunning {
        kills := kills + [Kill(SourceConnection, KillPattern(stem, WriteEnd))];
      }
      if destinationRunning {
        kills := kills + [Kill(DestinationConnection, KillPattern(stem, ReadEnd))];
      }
      dataDir := dataDir - set f | f in dataDir && IsPipeFileOf(f, stem);
      Finalize(if forceSuccess then Passed else Failed(message), refresh, now);
    }
  }
}
