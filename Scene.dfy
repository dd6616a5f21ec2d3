// The scene: the ordered list of loaded objects and the current selection,
// which the list widget, the remove action and the visibility checkbox update.

module Scenes {
  import opened Geometry
  import opened SceneObjects

  /** Position of the first object in `objs` whose id is `id`. */
  function FirstWithId(objs: seq<SceneObject>, id: u32): (r: Option<nat>)
    ensures r.Some? ==> r.value < |objs| && objs[r.value].id == id
    ensures r.Some? ==> forall j :: 0 <= j < r.value ==> objs[j].id != id
    ensures r.None? <==> forall j :: 0 <= j < |objs| ==> objs[j].id != id
  {
    if |objs| == 0 then None
    else if objs[0].id == id then Some(0)
    else match FirstWithId(objs[1..], id)
      case None => None
      case Some(k) => Some(k + 1)
  }

  /** The object getObjectByID returns: the first one with that id, or null. */
  function ObjectWithId(objs: seq<SceneObject>, id: u32): (r: SceneObject?)
    ensures r != null ==> exists i :: 0 <= i < |objs| && objs[i] == r && r.id == id &&
                                      forall j :: 0 <= j < i ==> objs[j].id != id
    ensures r == null <==> forall o :: o in objs ==> o.id != id
  {
    match FirstWithId(objs, id)
    case None => null
    case Some(i) => objs[i]
  }

  /** Position of the first occurrence of `o` (std::find compares pointers). */
  function FirstIndexOf(objs: seq<SceneObject>, o: SceneObject): (r: Option<nat>)
    ensures r.Some? ==> r.value < |objs| && objs[r.value] == o && o !in objs[..r.value]
    ensures r.None? <==> o !in objs
  {
    if |objs| == 0 then None
    else if objs[0] == o then Some(0)
    else match FirstIndexOf(objs[1..], o)
      case None => None
      case Some(k) =>
        assert objs[..k + 1] == [objs[0]] + objs[1..][..k];
        Some(k + 1)
  }

  /** The list after `erase(find(begin, end, o))`, or unchanged if `o` is absent. */
  function RemoveFirst(objs: seq<SceneObject>, o: SceneObject): (r: seq<SceneObject>)
    ensures o in objs ==> |r| == |objs| - 1
    ensures o !in objs ==> r == objs
    ensures forall x :: x in r ==> x in objs
    ensures forall x :: x in objs && x != o ==> x in r
  {
    match FirstIndexOf(objs, o)
    case None => objs
    case Some(i) => objs[..i] + objs[i + 1..]
  }

  /** Removing a present object takes exactly one copy of it out of the list and
      keeps every other entry, in its relative order; an absent one changes nothing. */
  lemma RemoveFirstSpec(objs: seq<SceneObject>, o: SceneObject)
    ensures o in objs ==> |RemoveFirst(objs, o)| == |objs| - 1
    ensures o in objs ==> multiset(RemoveFirst(objs, o)) == multiset(objs) - multiset{o}
    ensures o in objs ==> exists i :: 0 <= i < |objs| && objs[i] == o && o !in objs[..i] &&
                                      RemoveFirst(objs, o) == objs[..i] + objs[i + 1..]
    ensures o !in objs ==> RemoveFirst(objs, o) == objs
  {
    match FirstIndexOf(objs, o)
    case None =>
    case Some(i) =>
      assert objs == objs[..i] + [o] + objs[i + 1..];
      assert multiset(objs) == multiset(objs[..i]) + multiset{o} + multiset(objs[i + 1..]);
  }

  class Scene {
    var objects: seq<SceneObject>
    var selection: SceneObject?

    /** The selection, when there is one, is an object of the list. */
    ghost predicate Valid()
      reads this
    {
      selection != null ==> selection in objects
    }

    /** A new scene: no objects and no selection. */
    constructor ()
      ensures objects == [] && selection == null
      ensures Valid()
    {
      objects := [];
      selection := null;
    }

    /** addObjectOnScene: appends the object and makes it the selection. */
    method AddObjectOnScene(obj: SceneObject)
      modifies this
      ensures objects == old(objects) + [obj]
      ensures selection == obj
      ensures Valid()
    {
      objects := objects + [obj];
      selection := obj;
    }

    /** getObjectByID: the first object of the list with that id, null if none. */
    method GetObjectByID(id: u32) returns (r: SceneObject?)
      ensures r == ObjectWithId(objects, id)
      ensures r != null ==> r in objects && r.id == id
      ensures r == null <==> forall o :: o in objects ==> o.id != id
    {
      for i := 0 to |objects|
        invariant forall j :: 0 <= j < i ==> objects[j].id != id
      {
        if id == objects[i].id {
          return objects[i];
        }
      }
      return null;
    }

    /** handleSceneItemChanged: a null item changes nothing; otherwise the
        selection becomes the object with the item's id, null when it is absent. */
    method HandleSceneItemChanged(current: Option<u32>)
      modifies this`selection
      ensures current.None? ==> selection == old(selection)
      ensures current.Some? ==> selection == ObjectWithId(objects, current.value)
      ensures old(Valid()) ==> Valid()
    {
      if current.Some? {
        selection := GetObjectByID(current.value);
      }
    }

    /** removeCurrentObjSelection: without a selection nothing changes; otherwise
        the first occurrence of the selected object is erased and the selection
        cleared, or, if the object is not in the list, both stay as they were. */
    method RemoveCurrentObjSelection()
      modifies this
      ensures old(selection) == null ==> objects == old(objects) && selection == null
      ensures old(selection) != null && old(selection) in old(objects) ==>
                objects == RemoveFirst(old(objects), old(selection)) && selection == null
      ensures old(selection) != null && old(selection) !in old(objects) ==>
                objects == old(objects) && selection == old(selection)
      ensures Valid() == old(Valid())
    {
      var current := selection;
      if current == null {
        return;
      }
      match FirstIndexOf(objects, current)
      case None =>
      case Some(i) =>
        objects := objects[..i] + objects[i + 1..];
        selection := null;
    }

    /** setCurrentObjVisibility: no-op without a selection; otherwise only the
        selected object's visibility flag changes. */
    method SetCurrentObjVisibility(state: int)
      modifies selection
      ensures selection == old(selection) && objects == old(objects)
      ensures selection != null ==> selection.isActive == (state != 0)
      ensures selection != null ==> selection.buffersInited == old(selection.buffersInited)
    {
      var current := selection;
      if current == null {
        return;
      }
      current.SetVisible(state);
    }
  }
}
