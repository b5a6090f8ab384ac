/** What every schedule of registry, engine and storage calls keeps: who holds which lock, and
    that the stored headers are those of an atomic registry. */
module RegistryProof {
  import opened Basics
  import opened Locks
  import opened RegistrySpec
  import opened RegistryMachine
  import StoreProof = StorageProof

  type Owners = map<ObjectId, Option<ThreadId>>
  type Helds = map<ThreadId, Option<ObjectId>>

  /** The holders of the entry mutexes. */
  ghost predicate OwnInv(owners: Owners, helds: Helds) {
    (forall id :: id in owners && owners[id].Some? ==>
                    owners[id].value in helds && helds[owners[id].value] == Some(id)) &&
    (forall t :: t in helds && helds[t].Some? ==>
                   helds[t].value in owners && owners[helds[t].value] == Some(t))
  }

  lemma LockEntryOwn(owners: Owners, helds: Helds, t: ThreadId, id: ObjectId)
    requires OwnInv(owners, helds) && t in helds && helds[t].None? && id in owners && owners[id].None?
    ensures OwnInv(owners[id := Some(t)], helds[t := Some(id)])
  {
  }

  lemma UnlockEntryOwn(owners: Owners, helds: Helds, t: ThreadId, id: ObjectId)
    requires OwnInv(owners, helds) && t in helds && helds[t] == Some(id)
    ensures OwnInv(owners[id := None], helds[t := None])
  {
  }

  // What a task holds.

  function RegistryModeOf(p: Task): Mode { if p.Doing? then RegistryMode(p.stage) else Free }
  function EngineModeOf(p: Task): Mode { if p.Doing? then EngineMode(p.stage) else Free }
  function HeldBy(p: Task): Option<ObjectId> {
    if p.Doing? && HoldsEntry(p.stage) then Some(IdOf(p.call)) else None
  }

  type Tasks = map<ThreadId, Task>

  function RegistryModes(tasks: Tasks): Modes { map t | t in tasks :: RegistryModeOf(tasks[t]) }
  function EngineModes(tasks: Tasks): Modes { map t | t in tasks :: EngineModeOf(tasks[t]) }
  function HeldEntries(tasks: Tasks): Helds { map t | t in tasks :: HeldBy(tasks[t]) }
  function EntryOwners(entries: map<ObjectId, Entry>): Owners { map id | id in entries :: entries[id].owner }
  function StoredHeaders(entries: map<ObjectId, Entry>): Headers { map id | id in entries :: entries[id].header }

  lemma Projections(tasks: Tasks, t: ThreadId, p: Task)
    requires t in tasks
    ensures RegistryModes(tasks[t := p]) == RegistryModes(tasks)[t := RegistryModeOf(p)]
    ensures EngineModes(tasks[t := p]) == EngineModes(tasks)[t := EngineModeOf(p)]
    ensures HeldEntries(tasks[t := p]) == HeldEntries(tasks)[t := HeldBy(p)]
  {
  }

  /** The stages at which the entry of the call is known to be there. */
  predicate NeedsEntry(stage: Stage) {
    HoldsEntry(stage) || stage.GetLock? || stage.DestroyLock? || stage.DestroyErase? || stage.MigrateLock?
  }

  predicate OfCreate(stage: Stage) { stage.CreateStart? || stage.CreateInsert? }
  predicate OfGet(stage: Stage) {
    stage.GetStart? || stage.GetFind? || stage.GetLock? || stage.GetCopy? || stage.GetUnlock?
  }
  predicate OfDestroy(stage: Stage) {
    stage.DestroyStart? || stage.DestroyFind? || stage.DestroyLock? || stage.DestroyUnlock? ||
    stage.DestroyErase? || stage.DestroyLeave? || stage.DestroyRemove?
  }
  predicate OfMigrate(stage: Stage) {
    stage.MigrateStart? || stage.MigrateFind? || stage.MigrateLock? || stage.MigrateView? ||
    stage.MigrateUnlock? || Migrating(stage)
  }
  predicate OfRegister(stage: Stage) {
    stage.RegisterStart? || stage.RegisterInsert? || stage.RegisterLeave?
  }

  predicate RightCall(call: Call, stage: Stage) {
    (OfCreate(stage) ==> call.Create?) && (OfGet(stage) ==> call.Get?) && (OfDestroy(stage) ==> call.Destroy?) &&
    (OfMigrate(stage) ==> call.Migrate?) && (OfRegister(stage) ==> call.Register?) &&
    (stage.StorageCall? ==> call.Storage?)
  }

  /** The stages inside one turn of the engine's loop. */
  predicate InTurn(stage: Stage) {
    stage.EngineStart? || stage.EngineFind? || stage.EngineLeave? || stage.FuncRun? || stage.FuncWait?
  }

  /** A migration works on a private view while the header it started from stays stored. */
  ghost predicate TaskInv(headers: Headers, p: Task) {
    p.Doing? ==>
      RightCall(p.call, p.stage) &&
      (NeedsEntry(p.stage) ==> IdOf(p.call) in headers) &&
      (Migrating(p.stage) ==> headers[IdOf(p.call)] == p.seen) &&
      (Migrating(p.stage) && !p.stage.MigrateCommit? ==> !p.ok) &&
      (p.stage.EngineLeaveMissing? ==> !p.ok) &&
      (p.stage.MigrateLoop? ==> p.view.version == p.current) &&
      (InTurn(p.stage) ==> p.current != p.call.target) &&
      (p.stage.MigrateCommit? && p.ok ==> p.view.version == p.call.target)
  }

  ghost predicate TasksInv(headers: Headers, tasks: Tasks) {
    forall t :: t in tasks ==> TaskInv(headers, tasks[t])
  }

  /** A thread is inside a storage operation only where its registry call says so. */
  ghost predicate LinkInv(points: map<ThreadId, Machine.Point>, tasks: Tasks) {
    points.Keys == tasks.Keys &&
    forall t :: t in tasks && !(tasks[t].Doing? && InStorage(tasks[t].stage)) ==> points[t].Idle?
  }

  ghost predicate HeadersInv(log: seq<RegistryEvent>, headers: Headers) {
    LegalRegistry(log) && HeadersAfter(log) == headers
  }

  ghost predicate Inv(s: Sys) {
    RwInv(s.registry, RegistryModes(s.tasks)) &&
    RwInv(s.engine, EngineModes(s.tasks)) &&
    OwnInv(EntryOwners(s.entries), HeldEntries(s.tasks)) &&
    TasksInv(StoredHeaders(s.entries), s.tasks) &&
    HeadersInv(s.log, StoredHeaders(s.entries)) &&
    LinkInv(s.store.points, s.tasks) &&
    StoreProof.Inv(s.store)
  }

  lemma InitInv(threads: set<ThreadId>, rehashing: set<Machine.CellRef>)
    ensures Inv(Init(threads, rehashing))
  {
    StoreProof.InitInv(threads, rehashing);
  }

  /** Only t moves, to p, and holds the same locks as before. */
  ghost predicate HoldsTheSame(p: Task, q: Task) {
    RegistryModeOf(p) == RegistryModeOf(q) && EngineModeOf(p) == EngineModeOf(q) && HeldBy(p) == HeldBy(q)
  }

  predicate OutOfStorage(p: Task) {
    p.Doing? ==> !InStorage(p.stage)
  }

  lemma SameHoldsKeeps(s: Sys, t: ThreadId, p: Task)
    requires Inv(s) && t in s.tasks && HoldsTheSame(s.tasks[t], p)
    ensures RwInv(s.registry, RegistryModes(s.tasks[t := p]))
    ensures RwInv(s.engine, EngineModes(s.tasks[t := p]))
    ensures OwnInv(EntryOwners(s.entries), HeldEntries(s.tasks[t := p]))
  {
    hide StoreProof.Inv, HeadersInv, TaskInv, LinkInv;
    Projections(s.tasks, t, p);
    assert RegistryModes(s.tasks)[t := RegistryModeOf(p)] == RegistryModes(s.tasks);
    assert EngineModes(s.tasks)[t := EngineModeOf(p)] == EngineModes(s.tasks);
    assert HeldEntries(s.tasks)[t := HeldBy(p)] == HeldEntries(s.tasks);
  }

  lemma MoveKeepsTask(s: Sys, t: ThreadId, p: Task)
    requires Inv(s) && t in s.tasks && TaskInv(StoredHeaders(s.entries), p)
    requires OutOfStorage(s.tasks[t])
    ensures TasksInv(StoredHeaders(s.entries), s.tasks[t := p])
    ensures LinkInv(s.store.points, s.tasks[t := p])
  {
    hide StoreProof.Inv, HeadersInv;
  }

  // The instructions.

  lemma LockRegistryKeeps(s: Sys, t: ThreadId, unique: bool, p: Task)
    requires Inv(s) && t in s.tasks && OutOfStorage(s.tasks[t]) && CanLock(s.registry, unique)
    requires TaskInv(StoredHeaders(s.entries), p)
    requires RegistryModeOf(s.tasks[t]).Free? && RegistryModeOf(p) == ModeFor(unique)
    requires EngineModeOf(p) == EngineModeOf(s.tasks[t]) && HeldBy(p) == HeldBy(s.tasks[t])
    ensures Inv(SetTask(s, t, p).(registry := Locked(s.registry, t, unique)))
  {
    hide StoreProof.Inv, HeadersInv, RwInv, OwnInv, TaskInv, LinkInv, TasksInv;
    MoveKeepsTask(s, t, p);
    Projections(s.tasks, t, p);
    RwLockKeeps(s.registry, RegistryModes(s.tasks), t, unique);
    assert EngineModes(s.tasks)[t := EngineModeOf(p)] == EngineModes(s.tasks);
    assert HeldEntries(s.tasks)[t := HeldBy(p)] == HeldEntries(s.tasks);
  }

  lemma UnlockRegistryKeeps(s: Sys, t: ThreadId, p: Task)
    requires Inv(s) && t in s.tasks && OutOfStorage(s.tasks[t])
    requires TaskInv(StoredHeaders(s.entries), p) && RegistryModeOf(p).Free?
    requires EngineModeOf(p) == EngineModeOf(s.tasks[t]) && HeldBy(p) == HeldBy(s.tasks[t])
    ensures Inv(SetTask(s, t, p).(registry := Unlocked(s.registry, t)))
  {
    hide StoreProof.Inv, HeadersInv, RwInv, OwnInv, TaskInv, LinkInv, TasksInv;
    MoveKeepsTask(s, t, p);
    Projections(s.tasks, t, p);
    RwUnlockKeeps(s.registry, RegistryModes(s.tasks), t);
    assert EngineModes(s.tasks)[t := EngineModeOf(p)] == EngineModes(s.tasks);
    assert HeldEntries(s.tasks)[t := HeldBy(p)] == HeldEntries(s.tasks);
  }

  lemma LockEngineKeeps(s: Sys, t: ThreadId, unique: bool, p: Task)
    requires Inv(s) && t in s.tasks && OutOfStorage(s.tasks[t]) && CanLock(s.engine, unique)
    requires TaskInv(StoredHeaders(s.entries), p)
    requires EngineModeOf(s.tasks[t]).Free? && EngineModeOf(p) == ModeFor(unique)
    requires RegistryModeOf(p) == RegistryModeOf(s.tasks[t]) && HeldBy(p) == HeldBy(s.tasks[t])
    ensures Inv(SetTask(s, t, p).(engine := Locked(s.engine, t, unique)))
  {
    hide StoreProof.Inv, HeadersInv, RwInv, OwnInv, TaskInv, LinkInv, TasksInv;
    MoveKeepsTask(s, t, p);
    Projections(s.tasks, t, p);
    RwLockKeeps(s.engine, EngineModes(s.tasks), t, unique);
    assert RegistryModes(s.tasks)[t := RegistryModeOf(p)] == RegistryModes(s.tasks);
    assert HeldEntries(s.tasks)[t := HeldBy(p)] == HeldEntries(s.tasks);
  }

  lemma UnlockEngineKeeps(s: Sys, t: ThreadId, p: Task)
    requires Inv(s) && t in s.tasks && OutOfStorage(s.tasks[t])
    requires TaskInv(StoredHeaders(s.entries), p) && EngineModeOf(p).Free?
    requires RegistryModeOf(p) == RegistryModeOf(s.tasks[t]) && HeldBy(p) == HeldBy(s.tasks[t])
    ensures Inv(SetTask(s, t, p).(engine := Unlocked(s.engine, t)))
  {
    hide StoreProof.Inv, HeadersInv, RwInv, OwnInv, TaskInv, LinkInv, TasksInv;
    MoveKeepsTask(s, t, p);
    Projections(s.tasks, t, p);
    RwUnlockKeeps(s.engine, EngineModes(s.tasks), t);
    assert RegistryModes(s.tasks)[t := RegistryModeOf(p)] == RegistryModes(s.tasks);
    assert HeldEntries(s.tasks)[t := HeldBy(p)] == HeldEntries(s.tasks);
  }

  lemma LockEntryKeeps(s: Sys, t: ThreadId, p: Task, id: ObjectId)
    requires Inv(s) && t in s.tasks && OutOfStorage(s.tasks[t]) && TaskInv(StoredHeaders(s.entries), p)
    requires id in s.entries && s.entries[id].owner.None?
    requires HeldBy(s.tasks[t]).None? && HeldBy(p) == Some(id)
    requires RegistryModeOf(p) == RegistryModeOf(s.tasks[t]) && EngineModeOf(p) == EngineModeOf(s.tasks[t])
    ensures Inv(SetOwner(SetTask(s, t, p), id, Some(t)))
  {
    hide StoreProof.Inv, HeadersInv;
    OwnerChange(s, t, p, id, Some(t));
    Projections(s.tasks, t, p);
    LockEntryOwn(EntryOwners(s.entries), HeldEntries(s.tasks), t, id);
  }

  lemma UnlockEntryKeeps(s: Sys, t: ThreadId, p: Task, id: ObjectId)
    requires Inv(s) && t in s.tasks && OutOfStorage(s.tasks[t]) && TaskInv(StoredHeaders(s.entries), p)
    requires HeldBy(s.tasks[t]) == Some(id) && HeldBy(p).None? && id in s.entries
    requires RegistryModeOf(p) == RegistryModeOf(s.tasks[t]) && EngineModeOf(p) == EngineModeOf(s.tasks[t])
    ensures Inv(SetOwner(SetTask(s, t, p), id, None))
  {
    hide StoreProof.Inv, HeadersInv;
    OwnerChange(s, t, p, id, None);
    Projections(s.tasks, t, p);
    UnlockEntryOwn(EntryOwners(s.entries), HeldEntries(s.tasks), t, id);
  }

  lemma OwnerEntries(entries: map<ObjectId, Entry>, id: ObjectId, owner: Option<ThreadId>)
    requires id in entries
    ensures var entries' := entries[id := entries[id].(owner := owner)];
            StoredHeaders(entries') == StoredHeaders(entries) &&
            EntryOwners(entries') == EntryOwners(entries)[id := owner]
  {
  }

  /** A move that keeps two of the locks keeps what they say. */
  lemma SameModes(tasks: Tasks, t: ThreadId, p: Task)
    requires t in tasks && RegistryModeOf(p) == RegistryModeOf(tasks[t]) && EngineModeOf(p) == EngineModeOf(tasks[t])
    ensures RegistryModes(tasks[t := p]) == RegistryModes(tasks) && EngineModes(tasks[t := p]) == EngineModes(tasks)
  {
    Projections(tasks, t, p);
    assert RegistryModes(tasks)[t := RegistryModeOf(p)] == RegistryModes(tasks);
    assert EngineModes(tasks)[t := EngineModeOf(p)] == EngineModes(tasks);
  }

  lemma OwnerChange(s: Sys, t: ThreadId, p: Task, id: ObjectId, owner: Option<ThreadId>)
    requires Inv(s) && t in s.tasks && OutOfStorage(s.tasks[t]) && TaskInv(StoredHeaders(s.entries), p)
    requires RegistryModeOf(p) == RegistryModeOf(s.tasks[t]) && EngineModeOf(p) == EngineModeOf(s.tasks[t])
    requires id in s.entries
    ensures var s' := SetOwner(SetTask(s, t, p), id, owner);
            StoredHeaders(s'.entries) == StoredHeaders(s.entries) &&
            EntryOwners(s'.entries) == EntryOwners(s.entries)[id := owner] &&
            RwInv(s'.registry, RegistryModes(s'.tasks)) && RwInv(s'.engine, EngineModes(s'.tasks)) &&
            TasksInv(StoredHeaders(s'.entries), s'.tasks) && LinkInv(s'.store.points, s'.tasks)
  {
    hide StoreProof.Inv, HeadersInv, OwnInv, RwInv, TaskInv, LinkInv, TasksInv;
    hide StoredHeaders, EntryOwners, HeldEntries, RegistryModes, EngineModes;
    MoveKeepsTask(s, t, p);
    OwnerEntries(s.entries, id, owner);
    SameModes(s.tasks, t, p);
  }

  /** A step on the thread's own task alone, perhaps with a note in the history. */
  lemma QuietKeeps(s: Sys, t: ThreadId, p: Task)
    requires Inv(s) && t in s.tasks && OutOfStorage(s.tasks[t])
    requires TaskInv(StoredHeaders(s.entries), p) && HoldsTheSame(s.tasks[t], p)
    ensures Inv(SetTask(s, t, p))
  {
    hide StoreProof.Inv, HeadersInv;
    SameHoldsKeeps(s, t, p);
    MoveKeepsTask(s, t, p);
  }

  lemma NoteKeeps(s: Sys, t: ThreadId, p: Task, e: RegistryEvent)
    requires Inv(s) && t in s.tasks && OutOfStorage(s.tasks[t])
    requires TaskInv(StoredHeaders(s.entries), p) && HoldsTheSame(s.tasks[t], p)
    requires Fits(e, StoredHeaders(s.entries)) && Effect(e, StoredHeaders(s.entries)) == StoredHeaders(s.entries)
    ensures Inv(Note(SetTask(s, t, p), e))
  {
    hide StoreProof.Inv;
    SameHoldsKeeps(s, t, p);
    MoveKeepsTask(s, t, p);
    ExtendRegistry(s.log, e);
  }

  /** Under the unique registry lock no other thread needs or holds any entry. */
  lemma OthersNeedNothing(s: Sys, t: ThreadId, u: ThreadId)
    requires Inv(s) && t in s.tasks && u in s.tasks && u != t && RegistryModeOf(s.tasks[t]).Unique?
    ensures HeldBy(s.tasks[u]).None? && (s.tasks[u].Doing? ==> !NeedsEntry(s.tasks[u].stage))
  {
    hide StoreProof.Inv, HeadersInv, TaskInv, LinkInv;
    assert RegistryModes(s.tasks)[t].Unique?;
    assert s.registry.writer == Some(t);
    assert RegistryModes(s.tasks)[u].Free?;
  }

  lemma NobodyOwns(s: Sys, t: ThreadId, p: Task, entries: map<ObjectId, Entry>)
    requires Inv(s) && t in s.tasks && HoldsTheSame(s.tasks[t], p)
    requires RegistryModeOf(s.tasks[t]).Unique? && HeldBy(p).None?
    requires forall o :: o in entries ==> entries[o].owner.None? || (o in s.entries && entries[o] == s.entries[o])
    ensures OwnInv(EntryOwners(entries), HeldEntries(s.tasks[t := p]))
  {
    hide StoreProof.Inv, HeadersInv, TaskInv, LinkInv;
    forall u | u in s.tasks ensures HeldEntries(s.tasks[t := p])[u].None? && HeldEntries(s.tasks)[u].None? {
      if u != t {
        OthersNeedNothing(s, t, u);
      }
    }
    forall o | o in s.entries ensures s.entries[o].owner.None? {
      assert EntryOwners(s.entries)[o] == s.entries[o].owner;
    }
  }

  /** Create and Destroy replace or remove one entry under the unique registry lock. */
  lemma EntriesChangeKeeps(s: Sys, t: ThreadId, p: Task, entries: map<ObjectId, Entry>, e: RegistryEvent)
    requires Inv(s) && t in s.tasks && OutOfStorage(s.tasks[t]) && HoldsTheSame(s.tasks[t], p)
    requires RegistryModeOf(s.tasks[t]).Unique? && HeldBy(p).None?
    requires TaskInv(StoredHeaders(entries), p)
    requires forall o :: o in entries ==> entries[o].owner.None? || (o in s.entries && entries[o] == s.entries[o])
    requires Fits(e, StoredHeaders(s.entries)) && Effect(e, StoredHeaders(s.entries)) == StoredHeaders(entries)
    ensures Inv(Note(SetTask(s, t, p).(entries := entries), e))
  {
    hide StoreProof.Inv;
    NobodyOwns(s, t, p, entries);
    OthersKeepTheirInv(s, t, p, entries);
    SameHoldsKeeps(s, t, p);
    MoveKeepsLink(s, t, p);
    ExtendRegistry(s.log, e);
    hide TaskInv, LinkInv, RwInv, OwnInv;
  }

  lemma OthersKeepTheirInv(s: Sys, t: ThreadId, p: Task, entries: map<ObjectId, Entry>)
    requires Inv(s) && t in s.tasks && RegistryModeOf(s.tasks[t]).Unique? && TaskInv(StoredHeaders(entries), p)
    ensures TasksInv(StoredHeaders(entries), s.tasks[t := p])
  {
    hide StoreProof.Inv, HeadersInv, LinkInv, RwInv, OwnInv;
    forall u | u in s.tasks && u != t ensures TaskInv(StoredHeaders(entries), s.tasks[u]) {
      OthersNeedNothing(s, t, u);
      assert TaskInv(StoredHeaders(s.entries), s.tasks[u]);
    }
  }

  lemma MoveKeepsLink(s: Sys, t: ThreadId, p: Task)
    requires Inv(s) && t in s.tasks && OutOfStorage(s.tasks[t])
    ensures LinkInv(s.store.points, s.tasks[t := p])
  {
    hide StoreProof.Inv, HeadersInv;
  }

  /** Nobody else migrates the object whose entry mutex t holds. */
  lemma OthersKeepTheirHeaders(s: Sys, t: ThreadId, p: Task, id: ObjectId, h: Header)
    requires Inv(s) && t in s.tasks && HeldBy(s.tasks[t]) == Some(id)
    requires p.Doing? && !Migrating(p.stage) && TaskInv(StoredHeaders(s.entries), p)
    requires id in StoredHeaders(s.entries)
    ensures TasksInv(StoredHeaders(s.entries)[id := h], s.tasks[t := p])
  {
    hide StoreProof.Inv, HeadersInv, LinkInv, RwInv;
    forall u | u in s.tasks && u != t ensures TaskInv(StoredHeaders(s.entries)[id := h], s.tasks[u]) {
      assert TaskInv(StoredHeaders(s.entries), s.tasks[u]);
      assert HeldEntries(s.tasks)[t] == Some(id) && HeldEntries(s.tasks)[u] == HeldBy(s.tasks[u]);
    }
  }

  /** The commit: the header is replaced while its entry mutex is held. */
  lemma CommitKeeps(s: Sys, t: ThreadId, p: Task, e: RegistryEvent, s': Sys)
    requires Inv(s) && t in s.tasks && s.tasks[t].Doing? && OutOfStorage(s.tasks[t])
    requires HoldsTheSame(s.tasks[t], p) && p.Doing? && !Migrating(p.stage) && p.call == s.tasks[t].call
    requires TaskInv(StoredHeaders(s.entries), p)
    requires s.tasks[t].stage.MigrateCommit? && s.tasks[t].ok
    requires var q := s.tasks[t]; e == Migrated(IdOf(q.call), TargetOf(q.call), q.seen, true, q.view)
    requires var q, id := s.tasks[t], IdOf(s.tasks[t].call);
             id in s.entries &&
             s' == Note(SetTask(s, t, p), e).(entries := s.entries[id := s.entries[id].(header := q.view)])
    ensures Inv(s')
  {
    hide StoreProof.Inv;
    var q, id := s.tasks[t], IdOf(s.tasks[t].call);
    assert TaskInv(StoredHeaders(s.entries), q);
    SameHoldsKeeps(s, t, p);
    MoveKeepsLink(s, t, p);
    ExtendRegistry(s.log, e);
    assert StoredHeaders(s'.entries) == StoredHeaders(s.entries)[id := q.view];
    assert EntryOwners(s'.entries) == EntryOwners(s.entries);
    OthersKeepTheirHeaders(s, t, p, id, q.view);
    hide TaskInv, LinkInv, RwInv, OwnInv;
  }

  /** Entering, or taking a step of, a storage operation. */
  lemma StoreKeeps(s: Sys, t: ThreadId, p: Task, store': Machine.Store)
    requires Inv(s) && t in s.tasks && p.Doing? && InStorage(p.stage)
    requires TaskInv(StoredHeaders(s.entries), p) && HoldsTheSame(s.tasks[t], p)
    requires StoreProof.Inv(store') && t in store'.points && store'.points == s.store.points[t := store'.points[t]]
    requires t in s.store.points
    ensures Inv(SetTask(s, t, p).(store := store'))
  {
    hide StoreProof.Inv, HeadersInv;
    SameHoldsKeeps(s, t, p);
  }

  /** Leaving a storage operation that is over. */
  lemma LeaveStoreKeeps(s: Sys, t: ThreadId, p: Task)
    requires Inv(s) && t in s.tasks && Machine.CanCall(s.store, t)
    requires TaskInv(StoredHeaders(s.entries), p) && HoldsTheSame(s.tasks[t], p)
    ensures Inv(SetTask(s, t, p))
  {
    hide StoreProof.Inv, HeadersInv;
    SameHoldsKeeps(s, t, p);
  }

  // The calls.

  lemma TaskFacts(s: Sys, t: ThreadId)
    requires Inv(s) && t in s.tasks
    ensures TaskInv(StoredHeaders(s.entries), s.tasks[t]) && t in s.store.points && StoreProof.Inv(s.store)
    ensures HeadersAfter(s.log) == StoredHeaders(s.entries)
  {
    hide StoreProof.Inv;
  }

  lemma HeaderInIsStored(s: Sys, id: ObjectId)
    requires id in s.entries
    ensures id in StoredHeaders(s.entries) && HeaderIn(s, id) == StoredHeaders(s.entries)[id]
  {
  }

  lemma FunctionsKeep(s: Sys, t: ThreadId, p: Task, functions: set<(U32, U32)>)
    requires Inv(s) && t in s.tasks && OutOfStorage(s.tasks[t])
    requires TaskInv(StoredHeaders(s.entries), p) && HoldsTheSame(s.tasks[t], p)
    ensures Inv(SetTask(s, t, p).(functions := functions))
  {
    QuietKeeps(s, t, p);
    hide StoreProof.Inv, HeadersInv, RwInv, OwnInv, LinkInv, TasksInv;
  }

  lemma StartKeeps(s: Sys, t: ThreadId, call: Call)
    requires Inv(s) && t in s.tasks && s.tasks[t].Rest?
    ensures Inv(SetTask(s, t, Doing(call, FirstStage(call), NO_HEADER, NO_HEADER, 0, false)))
  {
    hide Inv, StoreProof.Inv;
    QuietKeeps(s, t, Doing(call, FirstStage(call), NO_HEADER, NO_HEADER, 0, false));
  }

  // The instructions again: Sound says when executing one is right, ExecKeeps that it then
  // keeps the invariant, CodeIsSound that the code of the calls only executes sound ones.

  /** The stored headers after i. */
  function HeadersWith(s: Sys, t: ThreadId, i: Instr): Headers
    requires t in s.tasks && s.tasks[t].Doing?
  {
    var p, hs := s.tasks[t], StoredHeaders(s.entries);
    match i
    case Insert(_) => if p.call.Create? then hs[IdOf(p.call) := p.call.header] else hs
    case Erase(_) => hs - {IdOf(p.call)}
    case _ => hs
  }

  ghost predicate Sound(s: Sys, t: ThreadId, i: Instr, q: Task)
    requires t in s.tasks && s.tasks[t].Doing?
  {
    var p := s.tasks[t];
    var id := IdOf(p.call);
    && TaskInv(HeadersWith(s, t, i), q)
    && (if i.Begin? then q.Doing? && InStorage(q.stage) else i.Await? <==> InStorage(p.stage))
    && (i.LockRegistry? ==> RegistryModeOf(p).Free?)
    && RegistryModeOf(q) == (if i.LockRegistry? then ModeFor(i.unique)
                             else if i.UnlockRegistry? then Free else RegistryModeOf(p))
    && (i.LockEngine? ==> EngineModeOf(p).Free?)
    && EngineModeOf(q) == (if i.LockEngine? then ModeFor(i.unique)
                           else if i.UnlockEngine? then Free else EngineModeOf(p))
    && (i.LockEntry? ==> id in s.entries && HeldBy(p).None?)
    && (i.UnlockEntry? ==> id in s.entries && HeldBy(p) == Some(id))
    && HeldBy(q) == (if i.LockEntry? then Some(id) else if i.UnlockEntry? then None else HeldBy(p))
    && (i.Insert? || i.Erase? ==> RegistryModeOf(p).Unique? && HeldBy(q).None?)
    && (i.Insert? ==> p.call.Create?)
    && (i.Miss? ==> id !in s.entries && (p.call.Get? || p.call.Destroy? || p.call.Migrate?))
    && (i.Copy? || i.Erase? ==> id in s.entries)
    && (i.AddFunction? ==> p.call.Register?)
    && (i.Commit? ==> p.stage.MigrateCommit? && q.Doing? && !Migrating(q.stage) && q.call == p.call &&
                      TaskInv(StoredHeaders(s.entries), p))
  }

  /** Everything an instruction lemma assumes. */
  ghost predicate Ready(s: Sys, t: ThreadId, i: Instr, q: Task) {
    Inv(s) && t in s.tasks && s.tasks[t].Doing? && Enabled(s, t, i) && q == After(s, t, i) && Sound(s, t, i, q)
  }

  lemma LockInstrKeeps(s: Sys, t: ThreadId, i: Instr, q: Task)
    requires Ready(s, t, i, q)
    requires i.LockRegistry? || i.UnlockRegistry? || i.LockEngine? || i.UnlockEngine?
    ensures Inv(Exec(s, t, i))
  {
    hide Inv, TaskInv, After;
    match i {
      case LockRegistry(unique, _) => LockRegistryKeeps(s, t, unique, q);
      case UnlockRegistry(_) => UnlockRegistryKeeps(s, t, q);
      case LockEngine(unique, _) => LockEngineKeeps(s, t, unique, q);
      case UnlockEngine(_) => UnlockEngineKeeps(s, t, q);
    }
  }

  lemma EntryInstrKeeps(s: Sys, t: ThreadId, i: Instr, q: Task)
    requires Ready(s, t, i, q)
    requires i.LockEntry? || i.UnlockEntry?
    ensures Inv(Exec(s, t, i))
  {
    hide Inv, TaskInv, After;
    if i.LockEntry? {
      LockEntryKeeps(s, t, q, IdOf(s.tasks[t].call));
    } else {
      UnlockEntryKeeps(s, t, q, IdOf(s.tasks[t].call));
    }
  }

  lemma QuietInstrKeeps(s: Sys, t: ThreadId, i: Instr, q: Task)
    requires Ready(s, t, i, q)
    requires i.GoTo? || i.View? || i.Decide? || i.Stamp? || i.AddFunction? || i.Finish?
    ensures Inv(Exec(s, t, i))
  {
    hide Inv, TaskInv, After;
    if i.AddFunction? {
      var p := s.tasks[t];
      FunctionsKeep(s, t, q, s.functions + {(p.call.from, p.call.to)});
    } else {
      QuietKeeps(s, t, q);
    }
  }

  lemma NoteInstrKeeps(s: Sys, t: ThreadId, i: Instr, q: Task)
    requires Ready(s, t, i, q)
    requires i.Miss? || i.Copy?
    ensures Inv(Exec(s, t, i))
  {
    hide Inv, TaskInv, After;
    var p, hs := s.tasks[t], StoredHeaders(s.entries);
    var id := IdOf(p.call);
    if i.Miss? {
      assert hs - {id} == hs;
      NoteKeeps(s, t, q, MissEvent(p.call));
    } else {
      HeaderInIsStored(s, id);
      NoteKeeps(s, t, q, Got(id, Some(HeaderIn(s, id))));
    }
  }

  lemma EntriesInstrKeeps(s: Sys, t: ThreadId, i: Instr, q: Task)
    requires Ready(s, t, i, q)
    requires i.Insert? || i.Erase?
    ensures Inv(Exec(s, t, i))
  {
    hide Inv, TaskInv, After;
    var p := s.tasks[t];
    var id := IdOf(p.call);
    if i.Insert? {
      var entries := s.entries[id := Entry(None, p.call.header)];
      assert StoredHeaders(entries) == StoredHeaders(s.entries)[id := p.call.header];
      EntriesChangeKeeps(s, t, q, entries, Created(p.call.header));
    } else {
      assert StoredHeaders(s.entries - {id}) == StoredHeaders(s.entries) - {id};
      EntriesChangeKeeps(s, t, q, s.entries - {id}, Destroyed(id, true));
    }
  }

  lemma CommitInstrKeeps(s: Sys, t: ThreadId, i: Instr, q: Task)
    requires Ready(s, t, i, q) && i.Commit?
    ensures Inv(Exec(s, t, i))
  {
    hide Inv, After;
    var p := s.tasks[t];
    var e := Migrated(IdOf(p.call), TargetOf(p.call), p.seen, p.ok, p.view);
    if p.ok {
      CommitKeeps(s, t, q, e, Exec(s, t, i));
    } else {
      NoteKeeps(s, t, q, e);
    }
  }

  lemma StorageInstrKeeps(s: Sys, t: ThreadId, i: Instr, q: Task)
    requires Ready(s, t, i, q)
    requires i.Begin? || i.Await?
    ensures Inv(Exec(s, t, i))
  {
    hide Inv, TaskInv, StoreProof.Inv;
    TaskFacts(s, t);
    if i.Begin? {
      StoreProof.CallKeeps(s.store, t, i.op);
      StoreKeeps(s, t, q, Machine.Call(s.store, t, i.op));
    } else if Machine.CanCall(s.store, t) {
      LeaveStoreKeeps(s, t, q);
    } else {
      StoreProof.MoveKeeps(s.store, Machine.Advance(t));
      var store' := Machine.Run(s.store, t);
      assert Machine.Do(s.store, Machine.Advance(t)) == store';
      StoreKeeps(s, t, q, store');
    }
  }

  lemma ExecKeeps(s: Sys, t: ThreadId, i: Instr, q: Task)
    requires Ready(s, t, i, q)
    ensures Inv(Exec(s, t, i))
  {
    hide *;
    if i.Miss? || i.Copy? {
      NoteInstrKeeps(s, t, i, q);
    } else if i.Insert? || i.Erase? {
      EntriesInstrKeeps(s, t, i, q);
    } else if i.Commit? {
      CommitInstrKeeps(s, t, i, q);
    } else if i.Begin? || i.Await? {
      StorageInstrKeeps(s, t, i, q);
    } else if i.LockEntry? || i.UnlockEntry? {
      EntryInstrKeeps(s, t, i, q);
    } else if i.GoTo? || i.View? || i.Decide? || i.Stamp? || i.AddFunction? || i.Finish? {
      QuietInstrKeeps(s, t, i, q);
    } else {
      LockInstrKeeps(s, t, i, q);
    }
  }

  /** What the code relies on, about its own task alone. */
  ghost predicate Facts(s: Sys, t: ThreadId, c: Choice, i: Instr, q: Task) {
    t in s.tasks && s.tasks[t].Doing? && TaskInv(StoredHeaders(s.entries), s.tasks[t]) &&
    i == Code(s, t, c) && q == After(s, t, i)
  }

  lemma CreateIsSound(s: Sys, t: ThreadId, c: Choice, i: Instr, q: Task)
    requires Facts(s, t, c, i, q)
    requires s.tasks[t].stage.CreateStart? || s.tasks[t].stage.CreateInsert?
    ensures Sound(s, t, i, q)
  {
  }

  lemma GetFindIsSound(s: Sys, t: ThreadId, c: Choice, i: Instr, q: Task)
    requires Facts(s, t, c, i, q)
    requires s.tasks[t].stage.GetStart? || s.tasks[t].stage.GetFind?
    ensures Sound(s, t, i, q)
  {
    hide TargetOf, StepTo;
  }

  lemma GetEntryIsSound(s: Sys, t: ThreadId, c: Choice, i: Instr, q: Task)
    requires Facts(s, t, c, i, q)
    requires s.tasks[t].stage.GetLock?
    ensures Sound(s, t, i, q)
  {
    hide TargetOf, StepTo;
  }

  lemma GetCopyIsSound(s: Sys, t: ThreadId, c: Choice, i: Instr, q: Task)
    requires Facts(s, t, c, i, q)
    requires s.tasks[t].stage.GetCopy? || s.tasks[t].stage.GetUnlock?
    ensures Sound(s, t, i, q)
  {
    hide TargetOf, StepTo;
  }

  lemma DestroyFindIsSound(s: Sys, t: ThreadId, c: Choice, i: Instr, q: Task)
    requires Facts(s, t, c, i, q)
    requires s.tasks[t].stage.DestroyStart? || s.tasks[t].stage.DestroyFind?
    ensures Sound(s, t, i, q)
  {
  }

  lemma DestroyLockIsSound(s: Sys, t: ThreadId, c: Choice, i: Instr, q: Task)
    requires Facts(s, t, c, i, q)
    requires s.tasks[t].stage.DestroyLock? || s.tasks[t].stage.DestroyUnlock?
    ensures Sound(s, t, i, q)
  {
  }

  lemma DestroyEraseIsSound(s: Sys, t: ThreadId, c: Choice, i: Instr, q: Task)
    requires Facts(s, t, c, i, q)
    requires s.tasks[t].stage.DestroyErase?
    ensures Sound(s, t, i, q)
  {
  }

  lemma DestroyLeaveIsSound(s: Sys, t: ThreadId, c: Choice, i: Instr, q: Task)
    requires Facts(s, t, c, i, q)
    requires s.tasks[t].stage.DestroyLeave? || s.tasks[t].stage.DestroyRemove?
    ensures Sound(s, t, i, q)
  {
  }

  lemma MigrateLockIsSound(s: Sys, t: ThreadId, c: Choice, i: Instr, q: Task)
    requires Facts(s, t, c, i, q)
    requires s.tasks[t].stage.MigrateFind? || s.tasks[t].stage.MigrateLock?
    ensures Sound(s, t, i, q)
  {
    hide HeaderIn, TargetOf, StepTo;
  }

  lemma MigrateUnlockIsSound(s: Sys, t: ThreadId, c: Choice, i: Instr, q: Task)
    requires Facts(s, t, c, i, q)
    requires s.tasks[t].stage.MigrateUnlock?
    ensures Sound(s, t, i, q)
  {
    hide HeaderIn, TargetOf, StepTo;
  }

  lemma MigrateViewIsSound(s: Sys, t: ThreadId, c: Choice, i: Instr, q: Task)
    requires Facts(s, t, c, i, q)
    requires s.tasks[t].stage.MigrateStart? || s.tasks[t].stage.MigrateView?
    ensures Sound(s, t, i, q)
  {
  }

  lemma LoopIsSound(s: Sys, t: ThreadId, c: Choice, i: Instr, q: Task)
    requires Facts(s, t, c, i, q)
    requires s.tasks[t].stage.MigrateLoop?
    ensures Sound(s, t, i, q)
  {
  }

  lemma CommitIsSound(s: Sys, t: ThreadId, c: Choice, i: Instr, q: Task)
    requires Facts(s, t, c, i, q)
    requires s.tasks[t].stage.MigrateCommit?
    ensures Sound(s, t, i, q)
  {
  }

  lemma EngineIsSound(s: Sys, t: ThreadId, c: Choice, i: Instr, q: Task)
    requires Facts(s, t, c, i, q)
    requires s.tasks[t].stage.EngineStart? || s.tasks[t].stage.EngineFind?
    ensures Sound(s, t, i, q)
  {
  }

  lemma EngineLeaveIsSound(s: Sys, t: ThreadId, c: Choice, i: Instr, q: Task)
    requires Facts(s, t, c, i, q)
    requires s.tasks[t].stage.EngineLeave? || s.tasks[t].stage.EngineLeaveMissing?
    ensures Sound(s, t, i, q)
  {
  }

  lemma FuncRunIsSound(s: Sys, t: ThreadId, c: Choice, i: Instr, q: Task)
    requires Facts(s, t, c, i, q)
    requires s.tasks[t].stage.FuncRun?
    ensures Sound(s, t, i, q)
  {
  }

  lemma FuncWaitIsSound(s: Sys, t: ThreadId, c: Choice, i: Instr, q: Task)
    requires Facts(s, t, c, i, q)
    requires s.tasks[t].stage.FuncWait?
    ensures Sound(s, t, i, q)
  {
  }

  lemma RegisterIsSound(s: Sys, t: ThreadId, i: Instr, q: Task)
    requires t in s.tasks && s.tasks[t].Doing? && TaskInv(StoredHeaders(s.entries), s.tasks[t]) && q == After(s, t, i)
    requires var st := s.tasks[t].stage;
             (st.RegisterStart? && i == LockEngine(true, RegisterInsert)) ||
             (st.RegisterInsert? && i == AddFunction(RegisterLeave)) ||
             (st.RegisterLeave? && i == UnlockEngine(Done))
    ensures Sound(s, t, i, q)
  {
    hide StoredHeaders, HeaderIn, IdOf, TargetOf, StepTo;
  }

  lemma StorageIsSound(s: Sys, t: ThreadId, i: Instr, q: Task)
    requires t in s.tasks && s.tasks[t].Doing? && TaskInv(StoredHeaders(s.entries), s.tasks[t]) && q == After(s, t, i)
    requires var p := s.tasks[t];
             (p.stage.StorageCall? && p.call.Storage? && i == Begin(p.call.op, StorageWait)) ||
             (p.stage.StorageWait? && i == Await(Done))
    ensures Sound(s, t, i, q)
  {
    hide StoredHeaders, HeaderIn, IdOf, TargetOf, StepTo;
  }

  lemma LeaveIsSound(s: Sys, t: ThreadId, i: Instr, q: Task)
    requires t in s.tasks && s.tasks[t].Doing? && TaskInv(StoredHeaders(s.entries), s.tasks[t]) && q == After(s, t, i)
    requires var st := s.tasks[t].stage;
             ((st.LeaveShared? || st.LeaveUnique?) && i == UnlockRegistry(Done)) || (st.Done? && i == Finish)
    ensures Sound(s, t, i, q)
  {
    hide StoredHeaders, HeaderIn, IdOf, TargetOf, StepTo;
  }

  lemma RestIsSound(s: Sys, t: ThreadId, c: Choice, i: Instr, q: Task)
    requires Facts(s, t, c, i, q)
    requires var st := s.tasks[t].stage;
             st.RegisterStart? || st.RegisterInsert? || st.RegisterLeave? || st.StorageCall? || st.StorageWait? ||
             st.LeaveShared? || st.LeaveUnique? || st.Done?
    ensures Sound(s, t, i, q)
  {
    assert s.tasks[t].stage.StorageCall? ==> s.tasks[t].call.Storage?;
    hide TaskInv, After, Sound;
    match s.tasks[t].stage {
      case RegisterStart => RegisterIsSound(s, t, i, q);
      case RegisterInsert => RegisterIsSound(s, t, i, q);
      case RegisterLeave => RegisterIsSound(s, t, i, q);
      case StorageCall => StorageIsSound(s, t, i, q);
      case StorageWait => StorageIsSound(s, t, i, q);
      case LeaveShared => LeaveIsSound(s, t, i, q);
      case LeaveUnique => LeaveIsSound(s, t, i, q);
      case Done => LeaveIsSound(s, t, i, q);
    }
  }

  lemma CodeIsSound(s: Sys, t: ThreadId, c: Choice)
    requires Inv(s) && t in s.tasks && s.tasks[t].Doing?
    ensures Sound(s, t, Code(s, t, c), After(s, t, Code(s, t, c)))
  {
    TaskFacts(s, t);
    var i := Code(s, t, c);
    var q := After(s, t, i);
    hide Inv, Code, After, Sound, TaskInv;
    match s.tasks[t].stage {
      case CreateStart => CreateIsSound(s, t, c, i, q);
      case CreateInsert => CreateIsSound(s, t, c, i, q);
      case GetStart => GetFindIsSound(s, t, c, i, q);
      case GetFind => GetFindIsSound(s, t, c, i, q);
      case GetLock => GetEntryIsSound(s, t, c, i, q);
      case GetCopy => GetCopyIsSound(s, t, c, i, q);
      case GetUnlock => GetCopyIsSound(s, t, c, i, q);
      case DestroyStart => DestroyFindIsSound(s, t, c, i, q);
      case DestroyFind => DestroyFindIsSound(s, t, c, i, q);
      case DestroyLock => DestroyLockIsSound(s, t, c, i, q);
      case DestroyUnlock => DestroyLockIsSound(s, t, c, i, q);
      case DestroyErase => DestroyEraseIsSound(s, t, c, i, q);
      case DestroyLeave => DestroyLeaveIsSound(s, t, c, i, q);
      case DestroyRemove => DestroyLeaveIsSound(s, t, c, i, q);
      case MigrateStart => MigrateViewIsSound(s, t, c, i, q);
      case MigrateFind => MigrateLockIsSound(s, t, c, i, q);
      case MigrateLock => MigrateLockIsSound(s, t, c, i, q);
      case MigrateView => MigrateViewIsSound(s, t, c, i, q);
      case MigrateUnlock => MigrateUnlockIsSound(s, t, c, i, q);
      case MigrateLoop => LoopIsSound(s, t, c, i, q);
      case MigrateCommit => CommitIsSound(s, t, c, i, q);
      case EngineLeaveMissing => EngineLeaveIsSound(s, t, c, i, q);
      case EngineStart => EngineIsSound(s, t, c, i, q);
      case EngineFind => EngineIsSound(s, t, c, i, q);
      case EngineLeave => EngineLeaveIsSound(s, t, c, i, q);
      case FuncRun => FuncRunIsSound(s, t, c, i, q);
      case FuncWait => FuncWaitIsSound(s, t, c, i, q);
      case RegisterStart => RestIsSound(s, t, c, i, q);
      case RegisterInsert => RestIsSound(s, t, c, i, q);
      case RegisterLeave => RestIsSound(s, t, c, i, q);
      case StorageCall => RestIsSound(s, t, c, i, q);
      case StorageWait => RestIsSound(s, t, c, i, q);
      case LeaveShared => RestIsSound(s, t, c, i, q);
      case LeaveUnique => RestIsSound(s, t, c, i, q);
      case Done => RestIsSound(s, t, c, i, q);
    }
  }

  lemma MoveKeeps(s: Sys, m: Move)
    requires Inv(s) && CanMove(s, m)
    ensures Inv(Do(s, m))
  {
    hide Inv, Exec, Code, After, Enabled, Sound;
    match m {
      case Start(t, call) => StartKeeps(s, t, call);
      case Advance(t, c) =>
        CodeIsSound(s, t, c);
        ExecKeeps(s, t, Code(s, t, c), After(s, t, Code(s, t, c)));
    }
  }

  lemma {:induction false} MovesKeep(s: Sys, moves: seq<Move>)
    requires Inv(s) && CanMoves(s, moves)
    ensures Inv(DoAll(s, moves))
    decreases |moves|
  {
    if moves != [] {
      MoveKeeps(s, moves[0]);
      MovesKeep(Do(s, moves[0]), moves[1..]);
    }
  }

  // Main results.

  /** After any schedule the stored headers are those of the atomic registry, every Get so far
      saw the header stored at that moment, and every successful Migrate replaced exactly the
      header it had started from by one with its target version. */
  lemma RegistryIsAtomic(threads: set<ThreadId>, rehashing: set<Machine.CellRef>, moves: seq<Move>)
    requires CanMoves(Init(threads, rehashing), moves)
    ensures var s := DoAll(Init(threads, rehashing), moves);
            LegalRegistry(s.log) && StoredHeaders(s.entries) == HeadersAfter(s.log)
  {
    InitInv(threads, rehashing);
    MovesKeep(Init(threads, rehashing), moves);
  }

  /** Between its view and its commit a migration keeps the header it started from stored:
      no Get sees an intermediate version, and no other migration is lost. */
  lemma MigrationHidesItsSteps(threads: set<ThreadId>, rehashing: set<Machine.CellRef>, moves: seq<Move>, t: ThreadId)
    requires CanMoves(Init(threads, rehashing), moves)
    requires var s := DoAll(Init(threads, rehashing), moves);
             t in s.tasks && s.tasks[t].Doing? && Migrating(s.tasks[t].stage)
    ensures var s := DoAll(Init(threads, rehashing), moves);
            HeaderOf(HeadersAfter(s.log), IdOf(s.tasks[t].call)) == Some(s.tasks[t].seen)
  {
    InitInv(threads, rehashing);
    MovesKeep(Init(threads, rehashing), moves);
    TaskFacts(DoAll(Init(threads, rehashing), moves), t);
  }

  /** The store inside the whole system is as linearizable as on its own. */
  lemma StoreStaysLinearizable(threads: set<ThreadId>, rehashing: set<Machine.CellRef>, moves: seq<Move>)
    requires CanMoves(Init(threads, rehashing), moves)
    ensures var st := DoAll(Init(threads, rehashing), moves).store;
            Spec.Linearizable(st.log) && StoreProof.Shows(st.table, st.cells, Spec.Replay(st.log))
  {
    InitInv(threads, rehashing);
    MovesKeep(Init(threads, rehashing), moves);
    StoreInvOf(DoAll(Init(threads, rehashing), moves));
  }

  lemma StoreInvOf(s: Sys)
    requires Inv(s)
    ensures StoreProof.Inv(s.store)
  {
    hide StoreProof.Inv;
  }
}
