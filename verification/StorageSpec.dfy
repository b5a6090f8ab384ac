/** The atomic component store that src/core/component_storage.cpp implements with locks:
    one map from (object, component type) to bytes. An object without components and an
    object that is not there at all are the same abstract state. */
module StorageSpec {
  import opened Basics
  import opened Histories

  datatype Op =
    | Read(obj: ObjectId, ty: ComponentType)
    | Write(obj: ObjectId, ty: ComponentType, data: ComponentData)
    | WriteSized(obj: ObjectId, ty: ComponentType, size: nat, data: ComponentData)
    | Remove(obj: ObjectId, ty: ComponentType)
    | RemoveAll(obj: ObjectId)

  datatype Answer =
    | Found(data: Option<ComponentData>)
    | Flag(ok: bool)
    | Nothing

  type Contents = map<(ObjectId, ComponentType), ComponentData>

  function Lookup(m: Contents, obj: ObjectId, ty: ComponentType): Option<ComponentData> {
    if (obj, ty) in m then Some(m[(obj, ty)]) else None
  }

  /** The size check of the schema overload of Write fails. */
  predicate Rejected(op: Op) {
    op.WriteSized? && |op.data| != op.size
  }

  predicate IsWrite(op: Op) {
    op.Write? || op.WriteSized?
  }

  function Without(m: Contents, o: ObjectId): Contents {
    map k | k in m && k.0 != o :: m[k]
  }

  function Apply(op: Op, m: Contents): (Contents, Answer) {
    match op
    case Read(o, ty) => (m, Found(Lookup(m, o, ty)))
    case Write(o, ty, data) => (m[(o, ty) := data], Nothing)
    case WriteSized(o, ty, size, data) =>
      if |data| != size then (m, Flag(false)) else (m[(o, ty) := data], Flag(true))
    case Remove(o, ty) => (m - {(o, ty)}, Flag((o, ty) in m))
    case RemoveAll(o) => (Without(m, o), Nothing)
  }

  type StorageEvent = Event<Op, Answer>

  /** The map left by executing the Take events one after the other. */
  function Replay(log: seq<StorageEvent>): Contents {
    if log == [] then map[]
    else
      var m := Replay(Front(log));
      if Last(log).Take? then Apply(Last(log).op, m).0 else m
  }

  /** Every Take event answered what the atomic store answers at that point. */
  predicate Legal(log: seq<StorageEvent>) {
    log == [] ||
    (Legal(Front(log)) &&
     (Last(log).Take? ==> Last(log).answer == Apply(Last(log).op, Replay(Front(log))).1))
  }

  /** The history is linearizable through its Take events: executed in that order they are
      a run of the atomic store, and each lies between the Invoke and the Return of its
      call, which returns the answer given there. */
  ghost predicate Linearizable(log: seq<StorageEvent>) {
    Legal(log) && WellFormed(log)
  }

  /** Appending one event. */
  lemma Extend(log: seq<StorageEvent>, e: StorageEvent)
    ensures Replay(log + [e]) == if e.Take? then Apply(e.op, Replay(log)).0 else Replay(log)
    ensures Legal(log + [e]) <==> Legal(log) && (e.Take? ==> e.answer == Apply(e.op, Replay(log)).1)
    ensures forall t :: PhaseOf(log + [e], t) ==
                        if e.thread == t then PhaseAfter(PhaseOf(log, t), e) else PhaseOf(log, t)
  {
    assert Front(log + [e]) == log && Last(log + [e]) == e;
    forall t ensures PhaseOf(log + [e], t) ==
                     if e.thread == t then PhaseAfter(PhaseOf(log, t), e) else PhaseOf(log, t)
    {
      PhaseAppend(log, e, t);
    }
  }
}
