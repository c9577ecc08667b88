/**
 * The Retranslator of Retranslator.cpp: a helper object that becomes a
 * child of a parent object, filters the events sent to that parent, and on
 * a LanguageChange event runs every retranslation callback registered for
 * the parent, in registration order.
 *
 * The Qt object tree is modelled as a table of object ids (`ObjectTable`):
 * each object's kind (a Retranslator or any other object), its parent, its
 * list of children and the set of event filters installed on it. Callbacks
 * are opaque ids; running one, or emitting the languageChange signal,
 * appends an entry to a trace.
 */
module Retranslation {
  import opened Wrappers

  /** An object's identity (a QObject pointer). */
  type ObjectId = int
  /** A registered std::function, by identity. */
  type CallbackId = int

  /** What qobject_cast< Retranslator* > can tell about an object. */
  datatype ObjectKind = PlainObject | RetranslatorObject

  /** QEvent::type(), as far as the filter tells types apart. */
  datatype EventType = LanguageChange | OtherEvent(code: nat)

  /** Something observable that a Retranslator does. */
  datatype Effect =
    | Invoked(callback: CallbackId)            // a retranslation callback ran
    | LanguageChangeEmitted(sender: ObjectId)  // the languageChange() signal

  /** The trace of running `callbacks` one after the other. */
  function Invocations(callbacks: seq<CallbackId>): seq<Effect> {
    if callbacks == [] then []
    else Invocations(callbacks[..|callbacks| - 1]) + [Invoked(callbacks[|callbacks| - 1])]
  }

  /** Running a list of callbacks runs the k-th one as the k-th step. */
  lemma {:induction false} InvocationsAt(callbacks: seq<CallbackId>)
    ensures |Invocations(callbacks)| == |callbacks|
    ensures forall k :: 0 <= k < |callbacks| ==> Invocations(callbacks)[k] == Invoked(callbacks[k])
  {
    if callbacks != [] {
      InvocationsAt(callbacks[..|callbacks| - 1]);
    }
  }

  /** Each callback runs as many times as it is registered: exactly once if registered once. */
  lemma {:induction false} InvocationsCount(callbacks: seq<CallbackId>, c: CallbackId)
    ensures multiset(Invocations(callbacks))[Invoked(c)] == multiset(callbacks)[c]
  {
    if callbacks != [] {
      var init, last := callbacks[..|callbacks| - 1], callbacks[|callbacks| - 1];
      InvocationsCount(init, c);
      assert callbacks == init + [last];
    }
  }

  /** Qt's object tree: kinds, parents, child lists (in creation order) and installed event filters. */
  datatype ObjectTable = ObjectTable(
    kind: map<ObjectId, ObjectKind>,
    parentOf: map<ObjectId, ObjectId>,
    children: map<ObjectId, seq<ObjectId>>,
    eventFilters: map<ObjectId, set<ObjectId>>,
    nextObject: ObjectId)

  /** `new QObject( parent )`: a fresh object, appended to the children of its parent. */
  function CreateObject(t: ObjectTable, parent: Option<ObjectId>, k: ObjectKind): ObjectTable
    requires parent.Some? ==> parent.value in t.children
  {
    var o := t.nextObject;
    match parent
    case None =>
      ObjectTable(t.kind[o := k], t.parentOf, t.children[o := []], t.eventFilters[o := {}], o + 1)
    case Some(p) =>
      ObjectTable(t.kind[o := k], t.parentOf[o := p], t.children[p := t.children[p] + [o]][o := []],
                  t.eventFilters[o := {}], o + 1)
  }

  /** `target->installEventFilter( filter )` */
  function InstallEventFilter(t: ObjectTable, target: ObjectId, filter: ObjectId): ObjectTable
    requires target in t.eventFilters
  {
    t.(eventFilters := t.eventFilters[target := t.eventFilters[target] + {filter}])
  }

  /**
   * The first Retranslator among `objects`, as the scan of retranslatorFor
   * over a child list finds it.
   */
  function FirstRetranslator(kind: map<ObjectId, ObjectKind>, objects: seq<ObjectId>): (r: Option<ObjectId>)
    requires forall i :: 0 <= i < |objects| ==> objects[i] in kind
    ensures r.None? <==> forall i :: 0 <= i < |objects| ==> kind[objects[i]] != RetranslatorObject
    ensures r.Some? ==> r.value in objects && kind[r.value] == RetranslatorObject
    ensures r.Some? ==> exists i :: 0 <= i < |objects| && objects[i] == r.value &&
                                    forall j :: 0 <= j < i ==> kind[objects[j]] != RetranslatorObject
  {
    if objects == [] then None
    else if kind[objects[0]] == RetranslatorObject then Some(objects[0])
    else
      var r := FirstRetranslator(kind, objects[1..]);
      assert forall k :: 0 <= k < |objects| - 1 ==> objects[1..][k] == objects[k + 1];
      r
  }

  /** Every known object, and only those, has a child list and a filter set; ids from `nextObject` on are unused. */
  ghost predicate Domains(t: ObjectTable) {
    t.children.Keys == t.kind.Keys && t.eventFilters.Keys == t.kind.Keys &&
    forall o :: o in t.kind ==> o < t.nextObject
  }

  /** Every child is a known object whose parent is the object listing it. */
  ghost predicate ChildrenKnown(t: ObjectTable) {
    forall p, i :: p in t.children && 0 <= i < |t.children[p]| ==>
      t.children[p][i] in t.kind && t.children[p][i] in t.parentOf && t.parentOf[t.children[p][i]] == p
  }

  /** A Retranslator has a callback list and is installed as a filter on its known parent. */
  ghost predicate RetranslatorsWired(t: ObjectTable, funcs: map<ObjectId, seq<CallbackId>>) {
    forall r :: r in t.kind && t.kind[r] == RetranslatorObject ==>
      r in funcs && r in t.parentOf && t.parentOf[r] in t.eventFilters && r in t.eventFilters[t.parentOf[r]]
  }

  /** No child list holds two Retranslators. */
  ghost predicate OnePerParent(t: ObjectTable) {
    forall p, i, j :: p in t.children && 0 <= i < j < |t.children[p]| &&
                      t.children[p][i] in t.kind && t.children[p][j] in t.kind ==>
      !(t.kind[t.children[p][i]] == RetranslatorObject && t.kind[t.children[p][j]] == RetranslatorObject)
  }

  /** The invariant of the object table together with the Retranslators' callback lists. */
  ghost predicate TreeValid(t: ObjectTable, funcs: map<ObjectId, seq<CallbackId>>) {
    Domains(t) && ChildrenKnown(t) && RetranslatorsWired(t, funcs) && OnePerParent(t)
  }

  /** `parent` is known and none of its children is a Retranslator. */
  ghost predicate NoRetranslatorChild(t: ObjectTable, parent: ObjectId) {
    parent in t.children &&
    forall i :: 0 <= i < |t.children[parent]| && t.children[parent][i] in t.kind ==>
      t.kind[t.children[parent][i]] != RetranslatorObject
  }

  lemma CreateObjectKnown(t: ObjectTable, parent: Option<ObjectId>, k: ObjectKind)
    requires Domains(t) && ChildrenKnown(t) && (parent.Some? ==> parent.value in t.kind)
    ensures Domains(CreateObject(t, parent, k)) && ChildrenKnown(CreateObject(t, parent, k))
  {
    var o, t' := t.nextObject, CreateObject(t, parent, k);
    forall p, i | p in t'.children && 0 <= i < |t'.children[p]|
      ensures t'.children[p][i] in t'.kind && t'.children[p][i] in t'.parentOf && t'.parentOf[t'.children[p][i]] == p
    {
      if parent == Some(p) && i == |t.children[p]| {
        assert t'.children[p][i] == o;
      } else {
        assert t'.children[p][i] == t.children[p][i];
      }
    }
  }

  lemma CreateObjectOnePerParent(t: ObjectTable, parent: Option<ObjectId>, k: ObjectKind)
    requires Domains(t) && ChildrenKnown(t) && OnePerParent(t)
    requires parent.Some? ==> parent.value in t.kind
    requires k == RetranslatorObject ==> parent.Some? && NoRetranslatorChild(t, parent.value)
    ensures OnePerParent(CreateObject(t, parent, k))
  {
    var t' := CreateObject(t, parent, k);
    forall p, i, j | p in t'.children && 0 <= i < j < |t'.children[p]| &&
                     t'.children[p][i] in t'.kind && t'.children[p][j] in t'.kind
      ensures !(t'.kind[t'.children[p][i]] == RetranslatorObject && t'.kind[t'.children[p][j]] == RetranslatorObject)
    {
      if parent == Some(p) && j == |t.children[p]| {
        assert t'.children[p][i] == t.children[p][i];
      } else if p != t.nextObject {
        assert t'.children[p][i] == t.children[p][i] && t'.children[p][j] == t.children[p][j];
      }
    }
  }

  /** Creating a plain object keeps the invariant. */
  lemma CreatePlainKeepsValid(t: ObjectTable, funcs: map<ObjectId, seq<CallbackId>>, parent: Option<ObjectId>)
    requires TreeValid(t, funcs) && (parent.Some? ==> parent.value in t.kind)
    ensures TreeValid(CreateObject(t, parent, PlainObject), funcs)
  {
    CreateObjectKnown(t, parent, PlainObject);
    CreateObjectOnePerParent(t, parent, PlainObject);
  }

  /**
   * Creating a Retranslator under a parent that has none, installing it as
   * that parent's filter and giving it an empty callback list keeps the
   * invariant.
   */
  lemma CreateRetranslatorKeepsValid(t: ObjectTable, funcs: map<ObjectId, seq<CallbackId>>, parent: ObjectId)
    requires TreeValid(t, funcs) && parent in t.kind
    requires FirstRetranslator(t.kind, t.children[parent]).None?
    ensures var r := t.nextObject;
      TreeValid(InstallEventFilter(CreateObject(t, Some(parent), RetranslatorObject), parent, r), funcs[r := []])
  {
    CreateObjectKnown(t, Some(parent), RetranslatorObject);
    assert NoRetranslatorChild(t, parent);
    CreateObjectOnePerParent(t, Some(parent), RetranslatorObject);
  }

  /** Replacing the callback list of a Retranslator keeps the invariant. */
  lemma RegisterKeepsValid(t: ObjectTable, funcs: map<ObjectId, seq<CallbackId>>, r: ObjectId, callbacks: seq<CallbackId>)
    requires TreeValid(t, funcs)
    ensures TreeValid(t, funcs[r := callbacks])
  {
  }

  /**
   * Appending a fresh Retranslator to a child list without one makes it
   * the first Retranslator of the list.
   */
  lemma {:induction false} FirstRetranslatorAppend(kind: map<ObjectId, ObjectKind>, objects: seq<ObjectId>, r: ObjectId)
    requires forall i :: 0 <= i < |objects| ==> objects[i] in kind && objects[i] != r
    requires FirstRetranslator(kind, objects).None?
    ensures FirstRetranslator(kind[r := RetranslatorObject], objects + [r]) == Some(r)
  {
    if objects != [] {
      FirstRetranslatorAppend(kind, objects[1..], r);
      assert (objects + [r])[1..] == objects[1..] + [r];
    }
  }

  class ObjectTree {
    var table: ObjectTable
    var funcs: map<ObjectId, seq<CallbackId>>  // m_retranslateFuncList of each Retranslator
    var trace: seq<Effect>

    ghost predicate Valid()
      reads this
    {
      TreeValid(table, funcs)
    }

    /** The Retranslator child of `parent`, if it has one. */
    function RetranslatorChild(parent: ObjectId): Option<ObjectId>
      reads this
      requires Valid() && parent in table.kind
    {
      FirstRetranslator(table.kind, table.children[parent])
    }

    /** The callbacks registered for `parent`: none when it has no Retranslator. */
    function CallbacksOf(parent: ObjectId): seq<CallbackId>
      reads this
      requires Valid() && parent in table.kind
    {
      match RetranslatorChild(parent)
      case None => []
      case Some(r) => funcs[r]
    }

    /** An object has at most one Retranslator child. */
    lemma AtMostOneRetranslator(parent: ObjectId, a: ObjectId, b: ObjectId)
      requires Valid() && parent in table.kind
      requires a in table.children[parent] && table.kind[a] == RetranslatorObject
      requires b in table.children[parent] && table.kind[b] == RetranslatorObject
      ensures a == b
    {
      var s := table.children[parent];
      var i :| 0 <= i < |s| && s[i] == a;
      var j :| 0 <= j < |s| && s[j] == b;
      assert !(i < j) && !(j < i);
    }

    /** An empty object tree. */
    constructor ()
      ensures Valid()
      ensures table.kind == map[] && funcs == map[] && trace == []
    {
      table := ObjectTable(map[], map[], map[], map[], 0);
      funcs := map[];
      trace := [];
    }

    /** An object created with `new QObject( parent )` elsewhere in the program. */
    method AddObject(parent: Option<ObjectId>) returns (o: ObjectId)
      requires Valid() && (parent.Some? ==> parent.value in table.kind)
      modifies this`table
      ensures Valid()
      ensures o == old(table.nextObject)
      ensures table == CreateObject(old(table), parent, PlainObject)
    {
      o := table.nextObject;
      CreatePlainKeepsValid(table, funcs, parent);
      table := CreateObject(table, parent, PlainObject);
    }

    /**
     * The search loop of retranslatorFor: the first child of `parent` that
     * is a Retranslator, if any.
     */
    method FindRetranslatorChild(parent: ObjectId) returns (found: Option<ObjectId>)
      requires Valid() && parent in table.kind
      ensures found == RetranslatorChild(parent)
    {
      var objects := table.children[parent];
      var i := 0;
      while i < |objects|
        invariant 0 <= i <= |objects|
        invariant FirstRetranslator(table.kind, objects[i..]) == FirstRetranslator(table.kind, objects)
      {
        if table.kind[objects[i]] == RetranslatorObject {
          return Some(objects[i]);
        }
        assert objects[i..][1..] == objects[i + 1..];
        i := i + 1;
      }
      return None;
    }

    /**
     * The Retranslator constructor: a new object, appended to the children
     * of `parent`, installed as an event filter on it, with an empty
     * callback list. Its only caller, retranslatorFor, calls it when
     * `parent` has no Retranslator child.
     */
    method NewRetranslator(parent: ObjectId) returns (r: ObjectId)
      requires Valid() && parent in table.kind && RetranslatorChild(parent).None?
      modifies this`table, this`funcs
      ensures Valid() && parent in table.kind
      ensures r == old(table.nextObject)
      ensures table == InstallEventFilter(CreateObject(old(table), Some(parent), RetranslatorObject), parent, r)
      ensures funcs == old(funcs)[r := []]
      ensures RetranslatorChild(parent) == Some(r)
    {
      r := table.nextObject;
      CreateRetranslatorKeepsValid(table, funcs, parent);
      FirstRetranslatorAppend(table.kind, table.children[parent], r);
      table := InstallEventFilter(CreateObject(table, Some(parent), RetranslatorObject), parent, r);
      funcs := funcs[r := []];
    }

    /**
     * retranslatorFor: the existing Retranslator child of `parent`, or a
     * new one when there is none.
     */
    method RetranslatorFor(parent: ObjectId) returns (r: ObjectId)
      requires Valid() && parent in table.kind
      modifies this`table, this`funcs
      ensures Valid() && parent in table.kind
      ensures RetranslatorChild(parent) == Some(r) && table.parentOf[r] == parent
      ensures old(RetranslatorChild(parent)).Some? ==>
        r == old(RetranslatorChild(parent)).value && table == old(table) && funcs == old(funcs)
      ensures old(RetranslatorChild(parent)).None? ==>
        r == old(table.nextObject) &&
        table == InstallEventFilter(CreateObject(old(table), Some(parent), RetranslatorObject), parent, r) &&
        funcs == old(funcs)[r := []]
    {
      var found := FindRetranslatorChild(parent);
      if found.Some? {
        return found.value;
      }
      r := NewRetranslator(parent);
    }

    /**
     * attachRetranslator: appends `callback` to the callback list of the
     * Retranslator of `parent` (created if need be) and runs it once.
     */
    method AttachRetranslator(parent: ObjectId, callback: CallbackId)
      requires Valid() && parent in table.kind
      modifies this
      ensures Valid() && parent in table.kind
      ensures RetranslatorChild(parent).Some?
      ensures CallbacksOf(parent) == old(CallbacksOf(parent)) + [callback]
      ensures funcs == old(funcs)[RetranslatorChild(parent).value := CallbacksOf(parent)]
      ensures old(RetranslatorChild(parent)).Some? ==> table == old(table)
      ensures old(RetranslatorChild(parent)).None? ==>
        table == InstallEventFilter(CreateObject(old(table), Some(parent), RetranslatorObject), parent, old(table.nextObject))
      ensures trace == old(trace) + [Invoked(callback)]
    {
      var r := RetranslatorFor(parent);
      RegisterKeepsValid(table, funcs, r, funcs[r] + [callback]);
      funcs := funcs[r := funcs[r] + [callback]];
      trace := trace + [Invoked(callback)];
    }

    /**
     * eventFilter: a LanguageChange event sent to the parent runs a copy of
     * the callback list in order and then emits languageChange; any other
     * event, or one for another object, runs nothing. The event is passed
     * on to QObject::eventFilter, which does not filter it out.
     */
    method EventFilter(r: ObjectId, obj: ObjectId, e: EventType) returns (filtered: bool)
      requires Valid() && r in table.kind && table.kind[r] == RetranslatorObject
      modifies this`trace
      ensures !filtered
      ensures obj == table.parentOf[r] && e == LanguageChange ==>
        trace == old(trace) + Invocations(funcs[r]) + [LanguageChangeEmitted(r)]
      ensures obj != table.parentOf[r] || e != LanguageChange ==> trace == old(trace)
    {
      if obj == table.parentOf[r] && e == LanguageChange {
        var callbacks := funcs[r];
        var i := 0;
        while i < |callbacks|
          invariant 0 <= i <= |callbacks|
          invariant trace == old(trace) + Invocations(callbacks[..i])
        {
          assert callbacks[..i + 1][..i] == callbacks[..i];
          trace := trace + [Invoked(callbacks[i])];
          i := i + 1;
        }
        assert callbacks[..i] == callbacks;
        trace := trace + [LanguageChangeEmitted(r)];
      }
      filtered := false;
    }
  }
}
