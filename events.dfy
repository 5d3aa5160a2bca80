/** `EventEmitter` (packages/pdf-core/src/utils/EventEmitter.ts): a table
    from event name to an ordered list of listeners. `on` appends and hands
    back a remover closure that captured the list object itself; `emit`
    calls the listeners of a copy of the list; `destroy` empties the table.

    Each list is an object of its own (`ListenerList`) so that a remover
    keeps pointing at the list it was created for, exactly as the closure
    does, even after `destroy` has dropped that list from the table. */
module Events {

  /** A listener function, identified as JavaScript identifies functions:
      by reference. */
  datatype Listener = Listener(id: nat)

  /** `Array.prototype.indexOf`: the first index holding `x`, or -1. */
  function IndexOf(s: seq<Listener>, x: Listener): (i: int)
    ensures -1 <= i < |s|
    ensures i == -1 <==> x !in s
    ensures 0 <= i ==> s[i] == x && x !in s[..i]
  {
    if s == [] then -1
    else if s[0] == x then 0
    else
      var j := IndexOf(s[1..], x);
      if j == -1 then -1 else j + 1
  }

  /** What the remover closure does to its list: splice out the first
      occurrence of the listener, if there is one. */
  function RemoveFirst(s: seq<Listener>, x: Listener): (r: seq<Listener>)
    ensures x !in s ==> r == s
    ensures x in s ==> |r| == |s| - 1 && r == s[..IndexOf(s, x)] + s[IndexOf(s, x) + 1..]
  {
    var i := IndexOf(s, x);
    if i > -1 then s[..i] + s[i + 1..] else s
  }

  /** Only the first occurrence goes: whatever precedes and follows it is
      kept, in order. */
  lemma RemoveFirstOccurrence(p: seq<Listener>, x: Listener, q: seq<Listener>)
    requires x !in p
    ensures RemoveFirst(p + [x] + q, x) == p + q
  {
    var s := p + [x] + q;
    var i := IndexOf(s, x);
    assert s[|p|] == x;
    assert forall k :: 0 <= k < |p| ==> s[k] == p[k];
    assert i == |p|;
    assert s[..i] == p;
    assert s[i + 1..] == q;
  }

  /** With no occurrence left, the remover changes nothing. */
  lemma RemoveAbsent(s: seq<Listener>, x: Listener)
    requires x !in s
    ensures RemoveFirst(s, x) == s
  {
  }

  /** Removing drops exactly one copy of the listener when there is one. */
  lemma RemoveFirstMultiset(s: seq<Listener>, x: Listener)
    ensures multiset(RemoveFirst(s, x)) == multiset(s) - multiset{x}
  {
    var i := IndexOf(s, x);
    if i > -1 {
      assert s == s[..i] + [x] + s[i + 1..];
      assert multiset(s) == multiset(s[..i]) + multiset{x} + multiset(s[i + 1..]);
    } else {
      assert multiset(s)[x] == 0;
    }
  }

  /** The listeners of one event, or none when the name is unknown. */
  function Snapshot(table: map<string, seq<Listener>>, event: string): seq<Listener>
  {
    if event in table then table[event] else []
  }

  /** The table after `on(event, listener)`: a list is created for a new
      name, the listener goes to its end, all other names keep theirs. */
  function Registered(table: map<string, seq<Listener>>, event: string, listener: Listener)
    : (table': map<string, seq<Listener>>)
    ensures table'.Keys == table.Keys + {event}
    ensures forall e :: e in table && e != event ==> table'[e] == table[e]
  {
    table[event := Snapshot(table, event) + [listener]]
  }

  /** No deduplication: registering the same listener twice leaves two more
      entries for it. */
  lemma RegisterTwice(table: map<string, seq<Listener>>, event: string, listener: Listener)
    ensures var t := Registered(Registered(table, event, listener), event, listener);
            t[event] == Snapshot(table, event) + [listener, listener] &&
            multiset(t[event])[listener] == multiset(Snapshot(table, event))[listener] + 2
  {
    var t := Registered(Registered(table, event, listener), event, listener);
    assert t[event] == Snapshot(table, event) + [listener] + [listener];
    assert Snapshot(table, event) + [listener] + [listener] == Snapshot(table, event) + [listener, listener];
  }

  /** Registering then calling the remover restores the list when the
      listener was not already registered for that event; when it was, the
      earlier entry is the one removed and the new one stays at the end. */
  lemma RegisterThenRemove(table: map<string, seq<Listener>>, event: string, listener: Listener)
    ensures var s := Snapshot(table, event);
            RemoveFirst(Registered(table, event, listener)[event], listener)
              == if listener in s then RemoveFirst(s, listener) + [listener] else s
  {
    var s := Snapshot(table, event);
    var i := IndexOf(s, listener);
    if i > -1 {
      assert s == s[..i] + [listener] + s[i + 1..];
      RemoveFirstOccurrence(s[..i], listener, s[i + 1..] + [listener]);
      assert s + [listener] == s[..i] + [listener] + (s[i + 1..] + [listener]);
    } else {
      RemoveFirstOccurrence(s, listener, []);
      assert s + [listener] + [] == s + [listener];
    }
  }

  /** The array a remover closure captured. */
  class ListenerList {
    var items: seq<Listener>

    constructor ()
      ensures items == []
    {
      items := [];
    }
  }

  /** The closure returned by `on`: the captured list and listener. */
  datatype Remover = Remover(list: ListenerList, listener: Listener)

  /** Calling a remover: it edits the list it captured and nothing else. */
  method CallRemover(r: Remover)
    modifies r.list
    ensures r.list.items == RemoveFirst(old(r.list.items), r.listener)
  {
    r.list.items := RemoveFirst(r.list.items, r.listener);
  }

  /** What a listener does when it is called during `emit`: return, throw,
      register another listener, or call a remover it holds. */
  datatype Reaction =
    | Returns
    | Throws
    | Subscribes(event: string, listener: Listener)
    | Unsubscribes(remover: Remover)

  /** The reaction of the i-th call; calls past the end of the script return. */
  function ReactionAt(reactions: seq<Reaction>, i: nat): Reaction
  {
    if i < |reactions| then reactions[i] else Returns
  }

  /** The number of the first n calls that throw (each is logged). */
  function CountThrows(reactions: seq<Reaction>, n: nat): nat
  {
    if n == 0 then 0
    else CountThrows(reactions, n - 1) + (if ReactionAt(reactions, n - 1).Throws? then 1 else 0)
  }

  /** The lists that the script's removers may edit. */
  function RemoverLists(reactions: seq<Reaction>): set<ListenerList>
  {
    set i | 0 <= i < |reactions| && reactions[i].Unsubscribes? :: reactions[i].remover.list
  }

  class EventEmitter {
    var eventListeners: map<string, ListenerList>
    ghost var Repr: set<object>

    /** Every list of the table belongs to the emitter and no two names share
        a list. */
    ghost predicate Valid()
      reads this, Repr
    {
      this in Repr &&
      (forall e :: e in eventListeners ==> eventListeners[e] in Repr) &&
      (forall e1, e2 :: e1 in eventListeners && e2 in eventListeners && e1 != e2 ==>
         eventListeners[e1] != eventListeners[e2])
    }

    /** The table's abstract value: each name's listeners, in order. */
    ghost function Contents(): map<string, seq<Listener>>
      reads this, eventListeners.Values
    {
      map e | e in eventListeners :: eventListeners[e].items
    }

    constructor ()
      ensures Valid() && fresh(Repr) && Contents() == map[]
    {
      eventListeners := map[];
      Repr := {this};
    }

    /** `on(event, listener)`. */
    method On(event: string, listener: Listener) returns (remover: Remover)
      requires Valid()
      modifies Repr
      ensures Valid() && fresh(Repr - old(Repr))
      ensures Contents() == Registered(old(Contents()), event, listener)
      ensures remover.listener == listener
      ensures event in eventListeners && remover.list == eventListeners[event]
      ensures event in old(eventListeners) ==> remover.list == old(eventListeners[event])
      ensures event !in old(eventListeners) ==> fresh(remover.list)
      ensures forall e :: e in old(eventListeners) ==> e in eventListeners && eventListeners[e] == old(eventListeners[e])
    {
      if event !in eventListeners {
        var created := new ListenerList();
        eventListeners := eventListeners[event := created];
        Repr := Repr + {created};
      }
      var listeners := eventListeners[event];
      listeners.items := listeners.items + [listener];
      remover := Remover(listeners, listener);
      assert forall e :: e in eventListeners && e != event ==> eventListeners[e] != listeners;
    }

    /** `emit(event)`: the listeners of a copy of the list taken before the
        first call are called, each once and in order, whatever the
        listeners do meanwhile; a throwing listener is logged and the round
        goes on. Returns who was called and how many calls threw. */
    method Emit(event: string, reactions: seq<Reaction>) returns (called: seq<Listener>, failures: nat)
      requires Valid()
      modifies Repr, RemoverLists(reactions)
      ensures Valid() && fresh(Repr - old(Repr))
      ensures called == Snapshot(old(Contents()), event)
      ensures failures == CountThrows(reactions, |called|)
      ensures event !in old(eventListeners) ==>
                eventListeners == old(eventListeners) && Contents() == old(Contents()) && failures == 0 &&
                Repr == old(Repr) && forall l :: l in RemoverLists(reactions) ==> l.items == old(l.items)
    {
      if event !in eventListeners {
        return [], 0;
      }
      var current := eventListeners[event].items;
      called, failures := [], 0;
      var i := 0;
      while i < |current|
        invariant 0 <= i <= |current|
        invariant Valid() && fresh(Repr - old(Repr))
        invariant called == current[..i]
        invariant failures == CountThrows(reactions, i)
      {
        called := called + [current[i]];
        match ReactionAt(reactions, i) {
          case Returns =>
          case Throws =>
            failures := failures + 1;
          case Subscribes(e, l) =>
            var _ := On(e, l);
          case Unsubscribes(r) =>
            assert r.list in RemoverLists(reactions);
            CallRemover(r);
        }
        i := i + 1;
      }
      assert current[..i] == current;
    }

    /** `destroy()`: the table is emptied; the lists themselves survive in
        whatever removers still hold them. */
    method Destroy()
      requires Valid()
      modifies this
      ensures Valid() && Contents() == map[] && eventListeners == map[] && Repr == {this}
    {
      eventListeners := map[];
      Repr := {this};
    }
  }

  /** A remover obtained before `destroy` only edits the discarded list: a
      listener registered afterwards under the same name, even the same
      listener, survives the call. */
  method RemoverAfterDestroy(event: string, first: Listener, later: Listener)
    returns (remaining: seq<Listener>)
    ensures remaining == [later]
  {
    var emitter := new EventEmitter();
    var stale := emitter.On(event, first);
    emitter.Destroy();
    var _ := emitter.On(event, later);
    CallRemover(stale);
    remaining := emitter.eventListeners[event].items;
  }
}
