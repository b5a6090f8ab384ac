/** Reader-writer locks, std::shared_mutex. */
module Locks {
  import opened Basics

  datatype Mode = Free | Shared | Unique

  datatype RwLock = RwLock(readers: set<ThreadId>, writer: Option<ThreadId>)

  predicate CanLock(l: RwLock, unique: bool) {
    l.writer.None? && (unique ==> l.readers == {})
  }

  function Locked(l: RwLock, t: ThreadId, unique: bool): RwLock {
    if unique then l.(writer := Some(t)) else l.(readers := l.readers + {t})
  }

  function Unlocked(l: RwLock, t: ThreadId): RwLock {
    RwLock(l.readers - {t}, if l.writer == Some(t) then None else l.writer)
  }

  type Modes = map<ThreadId, Mode>

  /** The lock is held as the threads say. */
  ghost predicate RwInv(l: RwLock, modes: Modes) {
    (forall t :: t in l.readers <==> t in modes && modes[t].Shared?) &&
    (forall t :: l.writer == Some(t) <==> t in modes && modes[t].Unique?) &&
    (l.writer.Some? ==> l.readers == {})
  }

  function ModeFor(unique: bool): Mode { if unique then Unique else Shared }

  lemma RwLockKeeps(l: RwLock, modes: Modes, t: ThreadId, unique: bool)
    requires RwInv(l, modes) && t in modes && modes[t].Free? && CanLock(l, unique)
    ensures RwInv(Locked(l, t, unique), modes[t := ModeFor(unique)])
  {
  }

  lemma RwUnlockKeeps(l: RwLock, modes: Modes, t: ThreadId)
    requires RwInv(l, modes) && t in modes
    ensures RwInv(Unlocked(l, t), modes[t := Free])
  {
  }

  /** Whoever cannot lock finds a holder. */
  lemma RwBlocked(l: RwLock, modes: Modes, unique: bool) returns (u: ThreadId)
    requires RwInv(l, modes) && !CanLock(l, unique)
    ensures u in modes && !modes[u].Free?
  {
    if l.writer.Some? {
      u := l.writer.value;
    } else {
      u :| u in l.readers;
    }
  }
}
