/** src/core/migration_engine.cpp and the sequential effect of ObjectRegistry::Migrate: the walk
    from one schema version to another over registered step functions. */
module Migration {
  import opened Basics
  import opened RegistrySpec
  import opened StorageSpec

  // The keys of the migration table, once as the source computes them and once on numbers.

  function KeyBits(from: bv32, to: bv32): bv64 {
    ((from as bv64) << 32) | (to as bv64)
  }

  /** The halves of the key are the versions, and | adds no carry: it is +. */
  lemma KeyHalves(from: bv32, to: bv32)
    ensures KeyBits(from, to) >> 32 == (from as bv64) && (KeyBits(from, to) & 0xFFFF_FFFF) == (to as bv64)
    ensures KeyBits(from, to) == ((from as bv64) << 32) + (to as bv64)
  {
  }

  lemma KeyBitsInjective(from: bv32, to: bv32, from': bv32, to': bv32)
    requires KeyBits(from, to) == KeyBits(from', to')
    ensures from == from' && to == to'
  {
    KeyHalves(from, to);
    KeyHalves(from', to');
    hide KeyBits;
    assert (from as bv64) == (from' as bv64) && (to as bv64) == (to' as bv64);
    Widened(from, from');
    Widened(to, to');
  }

  lemma Widened(a: bv32, b: bv32)
    requires (a as bv64) == (b as bv64)
    ensures a == b
  {
  }

  function MakeKey(from: U32, to: U32): (key: nat)
    ensures key < TWO_TO_32 * TWO_TO_32
  {
    from * TWO_TO_32 + to
  }

  lemma MakeKeyInjective(from: U32, to: U32, from': U32, to': U32)
    requires MakeKey(from, to) == MakeKey(from', to')
    ensures from == from' && to == to'
  {
    assert MakeKey(from, to) / TWO_TO_32 == from && MakeKey(from', to') / TWO_TO_32 == from';
  }

  /** A GameObject view together with the components the step functions can reach through it. */
  datatype View = View(header: Header, components: Contents)

  /** What a migration function did: its verdict, and the view it leaves either way. */
  datatype Outcome = Outcome(ok: bool, view: View)

  type MigrationFunc = (View, U32, U32) -> Outcome

  type Table = map<nat, MigrationFunc>

  /** The table as a function of version pairs. */
  function FuncFor(table: Table, from: U32, to: U32): Option<MigrationFunc> {
    if MakeKey(from, to) in table then Some(table[MakeKey(from, to)]) else None
  }

  /** Register overwrites exactly the pair it names. */
  lemma RegisterOverwritesOnePair(table: Table, from: U32, to: U32, func: MigrationFunc, from': U32, to': U32)
    ensures FuncFor(table[MakeKey(from, to) := func], from', to') ==
            if (from', to') == (from, to) then Some(func) else FuncFor(table, from', to')
  {
    if MakeKey(from, to) == MakeKey(from', to') {
      MakeKeyInjective(from, to, from', to');
    }
  }

  function Distance(a: U32, b: U32): nat {
    if a < b then b - a else a - b
  }

  /** One step as MigrateStep runs it: fails without changes if nothing is registered. */
  function Step(table: Table, v: View, from: U32, to: U32): Outcome {
    var f := FuncFor(table, from, to);
    if f.None? then Outcome(false, v) else f.value(v, from, to)
  }

  /** The engine then overwrites the version of the view. */
  function Stamped(v: View, version: U32): View {
    v.(header := v.header.(version := version))
  }

  /** The fold over the version interval that the loop computes. */
  function Walk(table: Table, v: View, current: U32, target: U32): Outcome
    decreases Distance(current, target)
  {
    if current == target then Outcome(true, v)
    else
      var next := NextVersion(current, target);
      var o := Step(table, v, current, next);
      if !o.ok then o else Walk(table, Stamped(o.view, next), next, target)
  }

  // An independent reading: what the registered functions themselves do along the path.

  /** The version after k steps from a towards b. */
  function VersionAt(a: U32, b: U32, k: nat): U32
    requires k <= Distance(a, b)
  {
    if a < b then a + k else a - k
  }

  /** The function registered for the pair, called with the pair, succeeds on v; v' is the view it
      leaves, with the version it was called for. */
  ghost predicate TakesTo(table: Table, v: View, from: U32, to: U32, v': View) {
    exists f :: FuncFor(table, from, to) == Some(f) && f(v, from, to).ok &&
                v'.components == f(v, from, to).view.components &&
                v'.header == Header(to, f(v, from, to).view.header.objectType, f(v, from, to).view.header.id)
  }

  /** The views before and after each of the first steps from a towards b. */
  ghost predicate Path(table: Table, v: View, a: U32, b: U32, views: seq<View>) {
    1 <= |views| <= Distance(a, b) + 1 && views[0] == v &&
    forall k :: 0 <= k < |views| - 1 ==> Leg(table, a, b, views, k)
  }

  ghost predicate Leg(table: Table, a: U32, b: U32, views: seq<View>, k: nat)
    requires k + 1 < |views| <= Distance(a, b) + 1
  {
    TakesTo(table, views[k], VersionAt(a, b, k), VersionAt(a, b, k + 1), views[k + 1])
  }

  /** A step of the walk is a call of the registered function with the pair, or nothing. */
  lemma StepCalls(table: Table, v: View, from: U32, to: U32)
    ensures FuncFor(table, from, to) == None ==> Step(table, v, from, to) == Outcome(false, v)
    ensures forall f :: FuncFor(table, from, to) == Some(f) ==> Step(table, v, from, to) == f(v, from, to)
    ensures forall v' :: TakesTo(table, v, from, to, v') <==>
                           Step(table, v, from, to).ok && v' == Stamped(Step(table, v, from, to).view, to)
  {
    var o := Step(table, v, from, to);
    if o.ok {
      var f := FuncFor(table, from, to).value;
      assert TakesTo(table, v, from, to, Stamped(o.view, to));
    }
  }

  lemma PathOnward(table: Table, v: View, a: U32, b: U32, v': View, views: seq<View>)
    requires a != b && TakesTo(table, v, a, NextVersion(a, b), v') && Path(table, v', NextVersion(a, b), b, views)
    ensures Path(table, v, a, b, [v] + views)
  {
    hide TakesTo;
    var all := [v] + views;
    forall k | 0 <= k < |all| - 1 ensures Leg(table, a, b, all, k) {
      if k > 0 {
        assert Leg(table, NextVersion(a, b), b, views, k - 1);
      }
    }
  }

  lemma PathRest(table: Table, v: View, a: U32, b: U32, views: seq<View>)
    requires a != b && |views| > 1 && Path(table, v, a, b, views)
    ensures TakesTo(table, v, a, NextVersion(a, b), views[1])
    ensures Path(table, views[1], NextVersion(a, b), b, views[1..])
  {
    hide TakesTo;
    assert Leg(table, a, b, views, 0);
    forall k | 0 <= k < |views| - 2 ensures Leg(table, NextVersion(a, b), b, views[1..], k) {
      assert Leg(table, a, b, views, k + 1);
    }
  }

  lemma {:induction false} SuccessHasPath(table: Table, v: View, a: U32, b: U32) returns (views: seq<View>)
    requires Walk(table, v, a, b).ok
    ensures Path(table, v, a, b, views) && |views| == Distance(a, b) + 1
    decreases Distance(a, b)
  {
    if a == b {
      views := [v];
    } else {
      var next := NextVersion(a, b);
      var v' := Stamped(Step(table, v, a, next).view, next);
      StepCalls(table, v, a, next);
      hide TakesTo, Path;
      views := SuccessHasPath(table, v', next, b);
      PathOnward(table, v, a, b, v', views);
      views := [v] + views;
    }
  }

  lemma {:induction false} PathIsSuccess(table: Table, v: View, a: U32, b: U32, views: seq<View>)
    requires Path(table, v, a, b, views) && |views| == Distance(a, b) + 1
    ensures Walk(table, v, a, b) == Outcome(true, Last(views))
    decreases Distance(a, b)
  {
    if a != b {
      PathRest(table, v, a, b, views);
      StepCalls(table, v, a, NextVersion(a, b));
      PathIsSuccess(table, views[1], NextVersion(a, b), b, views[1..]);
    }
  }

  /** The walk succeeds exactly when there is a path of successful calls of the registered functions
      all the way to b, and then it leaves the view at its end. */
  lemma WalkSucceedsIff(table: Table, v: View, a: U32, b: U32)
    ensures Walk(table, v, a, b).ok <==> exists views :: Path(table, v, a, b, views) && |views| == Distance(a, b) + 1
    ensures forall views :: Path(table, v, a, b, views) && |views| == Distance(a, b) + 1 ==>
                              Walk(table, v, a, b).view == Last(views)
  {
    hide Path, Walk;
    if Walk(table, v, a, b).ok {
      var views := SuccessHasPath(table, v, a, b);
    }
    forall views | Path(table, v, a, b, views) && |views| == Distance(a, b) + 1
      ensures Walk(table, v, a, b) == Outcome(true, Last(views))
    {
      PathIsSuccess(table, v, a, b, views);
    }
  }

  /** The first step that cannot be taken after these views: nothing is registered for its pair and
      the view stays, or the registered function, called with the pair, fails and leaves v'. */
  ghost predicate StopsAt(table: Table, a: U32, b: U32, views: seq<View>, v': View)
    requires 1 <= |views| <= Distance(a, b)
  {
    var from, to := VersionAt(a, b, |views| - 1), VersionAt(a, b, |views|);
    if FuncFor(table, from, to) == None then v' == Last(views)
    else
      var o := FuncFor(table, from, to).value(Last(views), from, to);
      !o.ok && v' == o.view
  }

  /** A failing walk leaves exactly the longest successful prefix of steps plus whatever the
      failing step itself did: nothing if it is not registered. */
  lemma {:induction false} WalkFailsAfterPrefix(table: Table, v: View, a: U32, b: U32) returns (views: seq<View>)
    requires !Walk(table, v, a, b).ok
    ensures Path(table, v, a, b, views) && |views| <= Distance(a, b)
    ensures StopsAt(table, a, b, views, Walk(table, v, a, b).view)
    decreases Distance(a, b)
  {
    var next := NextVersion(a, b);
    var o := Step(table, v, a, next);
    StepCalls(table, v, a, next);
    if o.ok {
      hide TakesTo, Path;
      var rest := WalkFailsAfterPrefix(table, Stamped(o.view, next), next, b);
      PathOnward(table, v, a, b, Stamped(o.view, next), rest);
      views := [v] + rest;
      assert Last(views) == Last(rest);
    } else {
      views := [v];
    }
  }

  /** What Migrate leaves in the version: the target exactly on success. */
  lemma {:induction false} SuccessReachesTarget(table: Table, v: View, a: U32, b: U32)
    requires v.header.version == a && Walk(table, v, a, b).ok
    ensures Walk(table, v, a, b).view.header.version == b
    decreases Distance(a, b)
  {
    if a != b {
      var next := NextVersion(a, b);
      SuccessReachesTarget(table, Stamped(Step(table, v, a, next).view, next), next, b);
    }
  }

  predicate Between(a: U32, b: U32, c: U32) {
    a <= b <= c || c <= b <= a
  }

  /** Going to b and on to c is going straight to c whenever b lies on the way. */
  lemma {:induction false} WalkComposes(table: Table, v: View, a: U32, b: U32, c: U32)
    requires Between(a, b, c)
    ensures var first := Walk(table, v, a, b);
            Walk(table, v, a, c) == if first.ok then Walk(table, first.view, b, c) else first
    decreases Distance(a, b)
  {
    if a != b {
      var next := NextVersion(a, b);
      assert next == NextVersion(a, c);
      var o := Step(table, v, a, next);
      if o.ok {
        WalkComposes(table, Stamped(o.view, next), next, b, c);
      }
    }
  }

  /** Adjacent registered functions undo each other, in the direction from `from` to `to`. */
  ghost predicate Undoes(table: Table, from: U32, to: U32) {
    forall v: View :: v.header.version == from ==>
                        exists w :: TakesTo(table, v, from, to, w) && TakesTo(table, w, to, from, v)
  }

  ghost predicate UndoesOnPath(table: Table, a: U32, b: U32) {
    forall k :: 0 <= k < Distance(a, b) ==> Undoes(table, VersionAt(a, b, k), VersionAt(a, b, k + 1))
  }

  /** If every adjacent pair on the path undoes, going anywhere and back restores the header
      and the components. */
  lemma {:induction false} RoundTrip(table: Table, v: View, a: U32, b: U32)
    requires v.header.version == a && UndoesOnPath(table, a, b)
    ensures Walk(table, v, a, b).ok
    ensures Walk(table, Walk(table, v, a, b).view, b, a) == Outcome(true, v)
    decreases Distance(a, b)
  {
    if a != b {
      var next := NextVersion(a, b);
      assert VersionAt(a, b, 0) == a && VersionAt(a, b, 1) == next;
      assert Undoes(table, a, next);
      var w :| TakesTo(table, v, a, next, w) && TakesTo(table, w, next, a, v);
      StepCalls(table, v, a, next);
      StepCalls(table, w, next, a);
      hide TakesTo, Undoes;
      forall k | 0 <= k < Distance(next, b) ensures Undoes(table, VersionAt(next, b, k), VersionAt(next, b, k + 1)) {
        assert VersionAt(next, b, k) == VersionAt(a, b, k + 1) && VersionAt(next, b, k + 1) == VersionAt(a, b, k + 2);
      }
      RoundTrip(table, w, next, b);
      WalkComposes(table, Walk(table, v, a, b).view, b, next, a);
      assert Walk(table, w, next, a) == Outcome(true, v) by {
        assert NextVersion(next, a) == a && Walk(table, v, a, a) == Outcome(true, v);
      }
    }
  }

  // The imperative form.

  class MigrationEngine {
    var migrations: Table

    constructor ()
      ensures migrations == map[]
    {
      migrations := map[];
    }

    method Register(from: U32, to: U32, func: MigrationFunc)
      modifies this
      ensures forall f: U32, t: U32 ::
                FuncFor(migrations, f, t) == if (f, t) == (from, to) then Some(func) else FuncFor(old(migrations), f, t)
    {
      migrations := migrations[MakeKey(from, to) := func];
      forall f: U32, t: U32
        ensures FuncFor(migrations, f, t) == if (f, t) == (from, to) then Some(func) else FuncFor(old(migrations), f, t)
      {
        RegisterOverwritesOnePair(old(migrations), from, to, func, f, t);
      }
    }

    method MigrateStep(v: View, from: U32, to: U32) returns (ok: bool, v': View)
      ensures FuncFor(migrations, from, to) == None ==> !ok && v' == v
      ensures forall f :: FuncFor(migrations, from, to) == Some(f) ==> Outcome(ok, v') == f(v, from, to)
      ensures Outcome(ok, v') == Step(migrations, v, from, to)
    {
      if MakeKey(from, to) !in migrations {
        return false, v;
      }
      var func := migrations[MakeKey(from, to)];
      var o := func(v, from, to);
      return o.ok, o.view;
    }

    /** The loop ends because |target - current| falls, whatever the steps do to the header,
        and `current` never leaves the 32-bit range. */
    method Migrate(v: View, target: U32) returns (ok: bool, v': View)
      ensures Outcome(ok, v') == Walk(migrations, v, v.header.version, target)
      ensures ok ==> v'.header.version == target
    {
      var current: U32 := v.header.version;
      v' := v;
      ok := true;
      while current != target
        invariant v'.header.version == current
        invariant Walk(migrations, v, v.header.version, target) == Walk(migrations, v', current, target)
        decreases Distance(current, target)
      {
        var next: U32 := if current < target then current + 1 else current - 1;
        ok, v' := MigrateStep(v', current, next);
        if !ok {
          return;
        }
        current := next;
        v' := Stamped(v', current);
      }
    }
  }

  /** ObjectRegistry over one engine, as one thread runs it. */
  class ObjectRegistry {
    const engine: MigrationEngine
    var objects: Headers
    var components: Contents

    constructor (engine: MigrationEngine)
      ensures this.engine == engine && objects == map[] && components == map[]
    {
      this.engine := engine;
      objects := map[];
      components := map[];
    }

    method Create(header: Header) returns (id: ObjectId)
      modifies this`objects
      ensures id == header.id && objects == Effect(Created(header), old(objects))
    {
      objects := objects[header.id := header];
      return header.id;
    }

    method Get(id: ObjectId) returns (header: Option<Header>)
      ensures Fits(Got(id, header), objects)
    {
      if id !in objects {
        return None;
      }
      return Some(objects[id]);
    }

    method Destroy(id: ObjectId)
      modifies this
      ensures objects == Effect(Destroyed(id, id in old(objects)), old(objects))
      ensures components == if id in old(objects) then Apply(RemoveAll(id), old(components)).0 else old(components)
    {
      if id !in objects {
        assert objects - {id} == objects;
        return;
      }
      objects := objects - {id};
      components := Without(components, id);
    }

    /** Headers are all or nothing, components are not: on failure the stored header is the old
        one while the components are what the walk left. */
    method Migrate(id: ObjectId, target: U32) returns (ok: bool)
      modifies this
      ensures id !in old(objects) ==> !ok && objects == old(objects) && components == old(components)
      ensures id in old(objects) ==>
                var h := old(objects)[id];
                var o := Walk(engine.migrations, View(h, old(components)), h.version, target);
                ok == o.ok && components == o.view.components &&
                objects == Effect(Migrated(id, target, h, ok, o.view.header), old(objects)) &&
                Fits(Migrated(id, target, h, ok, o.view.header), old(objects))
    {
      if id !in objects {
        return false;
      }
      var view: View;
      ok, view := engine.Migrate(View(objects[id], components), target);
      components := view.components;
      if ok {
        objects := objects[id := view.header];
      }
    }
  }

  /** Two calls of ObjectRegistry::Migrate in a row, if the middle version lies between: when
      the first succeeds it stores the middle version, and the second starts there and ends with
      the verdict, view and components of going straight; when it fails, going straight fails in
      the same way. */
  lemma RegistryMigrationsCompose(table: Table, h: Header, m: Contents, b: U32, c: U32)
    requires Between(h.version, b, c)
    ensures var first := Walk(table, View(h, m), h.version, b);
            var straight := Walk(table, View(h, m), h.version, c);
            if first.ok
            then var second := Walk(table, first.view, first.view.header.version, c);
                 first.view.header.version == b && second == straight
            else straight == first
  {
    WalkComposes(table, View(h, m), h.version, b, c);
    if Walk(table, View(h, m), h.version, b).ok {
      SuccessReachesTarget(table, View(h, m), h.version, b);
    }
  }
}
