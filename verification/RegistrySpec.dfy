/** Object headers, and the atomic registry that src/core/object_registry.cpp implements with
    locks: one map from object ids to headers. */
module RegistrySpec {
  import opened Basics

  datatype Header = Header(version: U32, objectType: U32, id: ObjectId)

  type Headers = map<ObjectId, Header>

  /** The moments at which the calls of ObjectRegistry take effect on the headers. */
  datatype RegistryEvent =
    | Created(header: Header)
    | Got(id: ObjectId, answer: Option<Header>)
    | Destroyed(id: ObjectId, found: bool)
    | MigrateMissed(id: ObjectId)
    | Migrated(id: ObjectId, target: U32, seen: Header, ok: bool, next: Header)

  function HeaderOf(m: Headers, id: ObjectId): Option<Header> {
    if id in m then Some(m[id]) else None
  }

  /** The event fits the headers m: a Get sees the stored header; a migration started from
      the header that is still stored when it commits, and commits only the target version. */
  predicate Fits(e: RegistryEvent, m: Headers) {
    match e
    case Created(_) => true
    case Got(id, a) => a == HeaderOf(m, id)
    case Destroyed(id, found) => found == (id in m)
    case MigrateMissed(id) => id !in m
    case Migrated(id, target, seen, ok, next) => HeaderOf(m, id) == Some(seen) && (ok ==> next.version == target)
  }

  function Effect(e: RegistryEvent, m: Headers): Headers {
    match e
    case Created(h) => m[h.id := h]
    case Got(_, _) => m
    case Destroyed(id, _) => m - {id}
    case MigrateMissed(_) => m
    case Migrated(id, _, _, ok, next) => if ok then m[id := next] else m
  }

  function HeadersAfter(log: seq<RegistryEvent>): Headers {
    if log == [] then map[] else Effect(Last(log), HeadersAfter(Front(log)))
  }

  predicate LegalRegistry(log: seq<RegistryEvent>) {
    log == [] || (LegalRegistry(Front(log)) && Fits(Last(log), HeadersAfter(Front(log))))
  }

  lemma ExtendRegistry(log: seq<RegistryEvent>, e: RegistryEvent)
    ensures HeadersAfter(log + [e]) == Effect(e, HeadersAfter(log))
    ensures LegalRegistry(log + [e]) <==> LegalRegistry(log) && Fits(e, HeadersAfter(log))
  {
    assert Front(log + [e]) == log && Last(log + [e]) == e;
  }

  /** The header was stored by a Create or by a successful Migrate. */
  predicate CommittedBy(e: RegistryEvent, id: ObjectId, h: Header) {
    (e.Created? && e.header == h && h.id == id) || (e.Migrated? && e.ok && e.id == id && e.next == h)
  }

  lemma {:induction false} StoredWasCommitted(log: seq<RegistryEvent>, id: ObjectId)
    requires id in HeadersAfter(log)
    ensures exists i :: 0 <= i < |log| && CommittedBy(log[i], id, HeadersAfter(log)[id])
  {
    var e, m := Last(log), HeadersAfter(Front(log));
    if CommittedBy(e, id, HeadersAfter(log)[id]) {
      assert log[|log| - 1] == e;
    } else {
      assert id in m && m[id] == HeadersAfter(log)[id];
      StoredWasCommitted(Front(log), id);
      var i :| 0 <= i < |Front(log)| && CommittedBy(Front(log)[i], id, m[id]);
      assert log[i] == Front(log)[i];
    }
  }

  lemma {:induction false} PrefixIsLegal(log: seq<RegistryEvent>, k: nat)
    requires LegalRegistry(log) && k <= |log|
    ensures LegalRegistry(log[..k])
    decreases |log|
  {
    if k == |log| {
      assert log[..k] == log;
    } else {
      PrefixIsLegal(Front(log), k);
      assert Front(log)[..k] == log[..k];
    }
  }

  /** A Get only ever sees a header that an earlier completed Create or successful Migrate
      of that object left. */
  lemma GetSeesCommitted(log: seq<RegistryEvent>, k: nat)
    requires LegalRegistry(log) && k < |log| && log[k].Got? && log[k].answer.Some?
    ensures exists i :: 0 <= i < k && CommittedBy(log[i], log[k].id, log[k].answer.value)
  {
    PrefixIsLegal(log, k + 1);
    var upto := log[..k + 1];
    assert Front(upto) == log[..k] && Last(upto) == log[k];
    StoredWasCommitted(log[..k], log[k].id);
    var i :| 0 <= i < k && CommittedBy(log[..k][i], log[k].id, log[k].answer.value);
    assert log[i] == log[..k][i];
  }
}
