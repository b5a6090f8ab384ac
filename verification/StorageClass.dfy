/** src/core/component_storage.cpp as one thread runs it, in place: store_ maps object ids to
    heap objects whose component maps are updated. Every method says what it does to the components
    and refines StorageSpec.Apply. */
module StorageClass {
  import opened Basics
  import opened StorageSpec

  class ObjectComponents {
    var components: map<ComponentType, ComponentData>

    constructor ()
      ensures components == map[]
    {
      components := map[];
    }
  }

  class ComponentStorage {
    var store: map<ObjectId, ObjectComponents>
    ghost var contents: Contents

    /** No two objects share a component map, and the heap shows exactly `contents`. */
    ghost predicate Valid()
      reads this, store.Values
    {
      (forall o, p :: o in store && p in store && store[o] == store[p] ==> o == p) &&
      (forall o, ty :: Component(o, ty) == Lookup(contents, o, ty))
    }

    function Component(o: ObjectId, ty: ComponentType): Option<ComponentData>
      reads this, store.Values
    {
      if o in store && ty in store[o].components then Some(store[o].components[ty]) else None
    }

    constructor ()
      ensures Valid() && contents == map[] && store == map[]
    {
      store := map[];
      contents := map[];
    }

    method Read(o: ObjectId, ty: ComponentType) returns (data: Option<ComponentData>)
      requires Valid()
      ensures data == Component(o, ty) && Found(data) == Apply(Op.Read(o, ty), contents).1
    {
      assert Component(o, ty) == Lookup(contents, o, ty);
      if o !in store {
        return None;
      }
      data := if ty in store[o].components then Some(store[o].components[ty]) else None;
    }

    method Write(o: ObjectId, ty: ComponentType, data: ComponentData)
      requires Valid()
      modifies this, store.Values
      ensures Valid() && contents == Apply(Op.Write(o, ty, data), old(contents)).0
      ensures Component(o, ty) == Some(data)
      ensures forall p: ObjectId, y: ComponentType :: (p, y) != (o, ty) ==> Component(p, y) == old(Component(p, y))
      ensures old(store.Keys) <= store.Keys && fresh(store.Values - old(store.Values))
    {
      if o !in store {
        var slot := new ObjectComponents();
        store := store[o := slot];
        assert store[o] == slot;
      }
      label filled:
      assert forall p :: p in old(store) ==> store[p] == old(store)[p];
      assert store[o] in store.Values;
      store[o].components := store[o].components[ty := data];
      contents := contents[(o, ty) := data];
      forall p, y ensures Component(p, y) == Lookup(contents, p, y) {
        assert old(Component(p, y)) == old(Lookup(contents, p, y));
      }
    }

    method WriteSized(o: ObjectId, ty: ComponentType, size: nat, data: ComponentData) returns (ok: bool)
      requires Valid()
      modifies this, store.Values
      ensures Valid() && ok == (|data| == size)
      ensures Component(o, ty) == if ok then Some(data) else old(Component(o, ty))
      ensures forall p: ObjectId, y: ComponentType :: (p, y) != (o, ty) ==> Component(p, y) == old(Component(p, y))
      ensures (contents, Flag(ok)) == Apply(Op.WriteSized(o, ty, size, data), old(contents))
    {
      if |data| != size {
        return false;
      }
      Write(o, ty, data);
      return true;
    }

    method Remove(o: ObjectId, ty: ComponentType) returns (ok: bool)
      requires Valid()
      modifies this, store.Values
      ensures Valid() && store == old(store)
      ensures ok == old(Component(o, ty)).Some? && Component(o, ty) == None
      ensures forall p: ObjectId, y: ComponentType :: (p, y) != (o, ty) ==> Component(p, y) == old(Component(p, y))
      ensures (contents, Flag(ok)) == Apply(Op.Remove(o, ty), old(contents))
    {
      assert Component(o, ty) == Lookup(contents, o, ty);
      if o !in store {
        assert contents - {(o, ty)} == contents;
        return false;
      }
      assert store[o] in store.Values;
      ok := ty in store[o].components;
      store[o].components := store[o].components - {ty};
      contents := contents - {(o, ty)};
      forall p, y ensures Component(p, y) == Lookup(contents, p, y) {
        assert old(Component(p, y)) == old(Lookup(contents, p, y));
      }
    }

    method RemoveAll(o: ObjectId)
      requires Valid()
      modifies this
      ensures Valid() && store == old(store) - {o}
      ensures forall p: ObjectId, y: ComponentType :: Component(p, y) == if p == o then None else old(Component(p, y))
      ensures contents == Apply(Op.RemoveAll(o), old(contents)).0
    {
      contents := Without(contents, o);
      if o in store {
        store := store - {o};
      } else {
        assert store - {o} == store;
      }
      forall p, y ensures Component(p, y) == Lookup(contents, p, y) {
        assert old(Component(p, y)) == old(Lookup(contents, p, y));
      }
    }
  }
}
