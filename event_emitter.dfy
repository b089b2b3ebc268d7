/** The in-process event emitter: a map from event names to the ordered set
    of callbacks registered for them.  A JavaScript `Set` keeps insertion
    order and holds each callback (compared by identity) once, so a set is a
    duplicate-free sequence here; a callback's identity is a `Callback` value. */
module Events {
  import opened Wrappers

  /** A callback identity: a function passed in by a caller, or the closure
      that `once` wraps around one (each `once` call makes a fresh closure). */
  datatype Callback = Fn(id: nat) | OnceWrapper(serial: nat, callback: Callback)

  type Registry = map<string, seq<Callback>>

  ghost predicate Distinct(s: seq<Callback>) {
    forall i, j :: 0 <= i < j < |s| ==> s[i] != s[j]
  }

  /** The emitter's invariant: no event maps to an empty set. */
  ghost predicate WellFormed(m: Registry) {
    forall e :: e in m ==> m[e] != [] && Distinct(m[e])
  }

  /** `listeners.get(event)`, with an absent entry read as the empty set. */
  function ListenersOf(m: Registry, e: string): seq<Callback> {
    if e in m then m[e] else []
  }

  /** `set.add(cb)`: a no-op when `cb` is already there, else appended last. */
  function Added(s: seq<Callback>, cb: Callback): (r: seq<Callback>)
    ensures forall x :: x in r <==> x in s || x == cb
    ensures cb in s ==> r == s
    ensures |s| <= |r| && r[..|s|] == s
    ensures Distinct(s) ==> Distinct(r)
  {
    if cb in s then s else s + [cb]
  }

  /** `set.delete(cb)`. */
  function Removed(s: seq<Callback>, cb: Callback): (r: seq<Callback>)
    ensures forall x :: x in r <==> x in s && x != cb
    ensures cb !in s ==> r == s
  {
    if s == [] then []
    else if s[0] == cb then Removed(s[1..], cb)
    else [s[0]] + Removed(s[1..], cb)
  }

  /** Store `s` as the set of `e`, deleting the entry when `s` is empty. */
  function Updated(m: Registry, e: string, s: seq<Callback>): (r: Registry)
    ensures ListenersOf(r, e) == s
    ensures e in r <==> s != []
  {
    if s == [] then m - {e} else m[e := s]
  }

  /** Writing one event's set leaves every other event's entry as it was. */
  lemma UpdatedFrame(m: Registry, e: string, s: seq<Callback>)
    ensures var r := Updated(m, e, s);
      forall k :: k != e ==> (k in r <==> k in m) && (k in m ==> r[k] == m[k])
  {
  }

  /** The registry after `on(e, cb)`. */
  function OnMap(m: Registry, e: string, cb: Callback): (r: Registry)
    ensures ListenersOf(r, e) == Added(ListenersOf(m, e), cb)
  {
    Updated(m, e, Added(ListenersOf(m, e), cb))
  }

  /** `on` keeps the invariant and touches no other event. */
  lemma OnFrame(m: Registry, e: string, cb: Callback)
    ensures var r := OnMap(m, e, cb);
      (WellFormed(m) ==> WellFormed(r)) &&
      forall k :: k != e ==> (k in r <==> k in m) && (k in m ==> r[k] == m[k])
  {
    UpdatedFrame(m, e, Added(ListenersOf(m, e), cb));
  }

  /** The registry after `off(e, cb)`. */
  function OffMap(m: Registry, e: string, cb: Callback): (r: Registry)
    ensures ListenersOf(r, e) == Removed(ListenersOf(m, e), cb)
  {
    if e in m then Updated(m, e, Removed(m[e], cb)) else m
  }

  /** `off` keeps the invariant and touches no other event; for an unknown
      event or an unregistered callback it changes nothing. */
  lemma OffFrame(m: Registry, e: string, cb: Callback)
    requires WellFormed(m)
    ensures var r := OffMap(m, e, cb);
      WellFormed(r) &&
      (forall k :: k != e ==> (k in r <==> k in m) && (k in m ==> r[k] == m[k])) &&
      (cb !in ListenersOf(m, e) ==> r == m)
  {
    if e in m {
      RemovedDistinct(m[e], cb);
      UpdatedFrame(m, e, Removed(m[e], cb));
    }
  }

  /** The registry after `removeAllListeners(event)`: a truthy (non-empty)
      name deletes that entry only; no name, or the empty name, clears all. */
  function RemoveAllMap(m: Registry, event: Option<string>): (r: Registry)
    ensures event == None || event == Some("") ==> r == map[]
    ensures event.Some? && event.value != "" ==>
      event.value !in r && forall k :: k != event.value ==> (k in r <==> k in m)
    ensures forall k :: k in r ==> k in m && r[k] == m[k]
  {
    if event.Some? && event.value != "" then m - {event.value} else map[]
  }

  /** The set left for an event once its `once` wrappers have unsubscribed. */
  function WithoutOnce(s: seq<Callback>): (r: seq<Callback>)
    ensures forall x :: x in r <==> x in s && !x.OnceWrapper?
    ensures Distinct(s) ==> Distinct(r)
  {
    if s == [] then []
    else if s[0].OnceWrapper? then WithoutOnce(s[1..])
    else [s[0]] + WithoutOnce(s[1..])
  }

  lemma {:induction false} WithoutOnceAppend(s: seq<Callback>, t: seq<Callback>)
    ensures WithoutOnce(s + t) == WithoutOnce(s) + WithoutOnce(t)
  {
    if s == [] {
      assert s + t == t;
    } else {
      assert (s + t)[1..] == s[1..] + t;
      WithoutOnceAppend(s[1..], t);
    }
  }

  lemma {:induction false} RemovedDistinct(s: seq<Callback>, cb: Callback)
    requires Distinct(s)
    ensures Distinct(Removed(s, cb))
  {
    if s != [] {
      assert Distinct(s[1..]);
      RemovedDistinct(s[1..], cb);
      assert s[0] !in s[1..];
    }
  }

  lemma {:induction false} RemovedAppend(s: seq<Callback>, t: seq<Callback>, cb: Callback)
    ensures Removed(s + t, cb) == Removed(s, cb) + Removed(t, cb)
  {
    if s == [] {
      assert s + t == t;
    } else {
      assert (s + t)[1..] == s[1..] + t;
      RemovedAppend(s[1..], t, cb);
    }
  }

  /** Registering a callback twice leaves one copy. */
  lemma OnIdempotent(m: Registry, e: string, cb: Callback)
    ensures OnMap(OnMap(m, e, cb), e, cb) == OnMap(m, e, cb)
  {
  }

  /** `off` undoes an `on` of a callback that was not registered yet. */
  lemma {:induction false} OffUndoesOn(m: Registry, e: string, cb: Callback)
    requires WellFormed(m) && cb !in ListenersOf(m, e)
    ensures OffMap(OnMap(m, e, cb), e, cb) == m
  {
    var s := ListenersOf(m, e);
    var on := OnMap(m, e, cb);
    assert Added(s, cb) == s + [cb];
    assert on == Updated(m, e, s + [cb]);
    RemovedAppend(s, [cb], cb);
    assert Removed([cb], cb) == [];
    assert Removed(s + [cb], cb) == s;
    assert e in on && on[e] == s + [cb];
    assert OffMap(on, e, cb) == Updated(on, e, s);
    UpdatedTwice(m, e, s + [cb], s);
    UpdatedSame(m, e);
  }

  /** Writing back an event's own set changes nothing. */
  lemma UpdatedSame(m: Registry, e: string)
    requires WellFormed(m)
    ensures Updated(m, e, ListenersOf(m, e)) == m
  {
    UpdatedFrame(m, e, ListenersOf(m, e));
  }

  /** Two writes of the same event's set: the second one wins. */
  lemma UpdatedTwice(m: Registry, e: string, s: seq<Callback>, t: seq<Callback>)
    ensures Updated(Updated(m, e, s), e, t) == Updated(m, e, t)
  {
    var a := Updated(Updated(m, e, s), e, t);
    var b := Updated(m, e, t);
    UpdatedFrame(m, e, s);
    UpdatedFrame(Updated(m, e, s), e, t);
    UpdatedFrame(m, e, t);
    assert forall k :: k in a <==> k in b;
  }

  /** Every `once` closure registered was made before the `n`-th one. */
  ghost predicate WrappersBelow(m: Registry, n: nat) {
    forall e, c :: e in m && c in m[e] && c.OnceWrapper? ==> c.serial < n
  }

  lemma OnWrappersBelow(m: Registry, e: string, cb: Callback, n: nat)
    requires WrappersBelow(m, n) && (cb.OnceWrapper? ==> cb.serial < n)
    ensures WrappersBelow(OnMap(m, e, cb), n)
  {
    var r := OnMap(m, e, cb);
    OnFrame(m, e, cb);
    forall k: string, c: Callback | k in r && c in r[k] && c.OnceWrapper? ensures c.serial < n {
      if k == e {
        assert c in Added(ListenersOf(m, e), cb);
      } else {
        assert r[k] == m[k];
      }
    }
  }

  lemma OffWrappersBelow(m: Registry, e: string, cb: Callback, n: nat)
    requires WellFormed(m) && WrappersBelow(m, n)
    ensures WrappersBelow(OffMap(m, e, cb), n)
  {
    var r := OffMap(m, e, cb);
    OffFrame(m, e, cb);
    forall k: string, c: Callback | k in r && c in r[k] && c.OnceWrapper? ensures c.serial < n {
      if k == e {
        assert c in Removed(ListenersOf(m, e), cb);
      } else {
        assert r[k] == m[k];
      }
    }
  }

  /** The closure `on` returns: calling it runs `off(event, callback)`. */
  datatype Unsubscribe = Unsubscribe(event: string, callback: Callback)

  class EventEmitter {
    var listeners: Registry
    /** How many `once` closures exist, so that the next one is a new identity. */
    var wrappersMade: nat

    ghost predicate Valid()
      reads this
    {
      WellFormed(listeners) && WrappersBelow(listeners, wrappersMade)
    }

    constructor()
      ensures Valid() && listeners == map[] && wrappersMade == 0
    {
      listeners := map[];
      wrappersMade := 0;
    }

    /** `on`: adds `callback` to the event's set, creating the set when absent. */
    method On(event: string, callback: Callback) returns (unsubscribe: Unsubscribe)
      requires Valid()
      requires callback.OnceWrapper? ==> callback.serial < wrappersMade
      modifies this
      ensures Valid() && wrappersMade == old(wrappersMade)
      ensures listeners == OnMap(old(listeners), event, callback)
      ensures unsubscribe == Unsubscribe(event, callback)
    {
      OnFrame(listeners, event, callback);
      OnWrappersBelow(listeners, event, callback, wrappersMade);
      listeners := OnMap(listeners, event, callback);
      unsubscribe := Unsubscribe(event, callback);
    }

    /** `off`: removes `callback`, deleting the entry once its set is empty. */
    method Off(event: string, callback: Callback)
      requires Valid()
      modifies this
      ensures Valid() && wrappersMade == old(wrappersMade)
      ensures listeners == OffMap(old(listeners), event, callback)
    {
      OffFrame(listeners, event, callback);
      OffWrappersBelow(listeners, event, callback, wrappersMade);
      listeners := OffMap(listeners, event, callback);
    }

    /** Calling the function `on` returned. */
    method CallUnsubscribe(unsubscribe: Unsubscribe)
      requires Valid()
      modifies this
      ensures Valid() && wrappersMade == old(wrappersMade)
      ensures listeners == OffMap(old(listeners), unsubscribe.event, unsubscribe.callback)
    {
      Off(unsubscribe.event, unsubscribe.callback);
    }

    /** `once`: registers a fresh closure that unsubscribes itself and then
        calls `callback`; the returned function unsubscribes that closure. */
    method Once(event: string, callback: Callback) returns (unsubscribe: Unsubscribe)
      requires Valid()
      requires callback.OnceWrapper? ==> callback.serial < wrappersMade
      modifies this
      ensures Valid() && wrappersMade == old(wrappersMade) + 1
      ensures unsubscribe == Unsubscribe(event, OnceWrapper(old(wrappersMade), callback))
      ensures unsubscribe.callback !in old(ListenersOf(listeners, event))
      ensures listeners == OnMap(old(listeners), event, unsubscribe.callback)
    {
      var wrapper := OnceWrapper(wrappersMade, callback);
      wrappersMade := wrappersMade + 1;
      unsubscribe := On(event, wrapper);
    }

    /** `emit`: calls each callback of exactly that event, in insertion order;
        `invoked` lists the calls.  A `once` closure unsubscribes itself when
        called, so afterwards the event's set holds no `once` closure and a
        second `emit` cannot call one again.  The callbacks' own effects on
        the emitter are not modelled. */
    method Emit(event: string) returns (invoked: seq<Callback>)
      requires Valid()
      modifies this
      ensures Valid() && wrappersMade == old(wrappersMade)
      ensures invoked == ListenersOf(old(listeners), event)
      ensures listeners == Updated(old(listeners), event, WithoutOnce(invoked))
      ensures forall c :: c in ListenersOf(listeners, event) ==> !c.OnceWrapper?
    {
      ghost var m0 := listeners;
      EmitStart(m0, event);
      invoked := VisitAll(m0, event, ListenersOf(listeners, event));
      EmitKeepsValid(m0, event, wrappersMade);
    }

    /** The loop of `emit`: the event's callbacks, as they were when it
        started, visited in order. */
    method VisitAll(ghost m0: Registry, event: string, callbacks: seq<Callback>) returns (invoked: seq<Callback>)
      requires WellFormed(m0) && callbacks == ListenersOf(m0, event)
      requires listeners == Updated(m0, event, Pending(callbacks, 0))
      modifies this
      ensures wrappersMade == old(wrappersMade)
      ensures invoked == callbacks
      ensures listeners == Updated(m0, event, Pending(callbacks, |callbacks|))
    {
      invoked := [];
      for i := 0 to |callbacks|
        invariant wrappersMade == old(wrappersMade)
        invariant listeners == Updated(m0, event, Pending(callbacks, i))
        invariant invoked == callbacks[..i]
      {
        assert callbacks[..i + 1] == callbacks[..i] + [callbacks[i]];
        invoked := invoked + [callbacks[i]];
        Visit(m0, event, callbacks, i);
      }
      assert callbacks[..|callbacks|] == callbacks;
    }

    /** The step of `emit` for the `i`-th callback: a `once` closure runs
        `off` on itself, anything else stays. */
    method Visit(ghost m0: Registry, event: string, callbacks: seq<Callback>, i: nat)
      requires WellFormed(m0)
      requires callbacks == ListenersOf(m0, event) && i < |callbacks|
      requires listeners == Updated(m0, event, Pending(callbacks, i))
      modifies this
      ensures wrappersMade == old(wrappersMade)
      ensures listeners == Updated(m0, event, Pending(callbacks, i + 1))
    {
      if callbacks[i].OnceWrapper? {
        EmitStep(m0, event, i);
        listeners := OffMap(listeners, event, callbacks[i]);
      } else {
        KeepingStep(callbacks, i);
      }
    }

    /** `removeAllListeners(event)`. */
    method RemoveAllListeners(event: Option<string>)
      requires Valid()
      modifies this
      ensures Valid() && wrappersMade == old(wrappersMade)
      ensures listeners == RemoveAllMap(old(listeners), event)
    {
      if event.Some? && event.value != "" {
        listeners := listeners - {event.value};
      } else {
        listeners := map[];
      }
    }

    /** `listenerCount`: the size of the event's set, 0 when it has none. */
    function ListenerCount(event: string): (n: nat)
      requires Valid()
      reads this
      ensures n == 0 <==> event !in listeners
      ensures event in listeners ==> n == |listeners[event]|
    {
      |ListenersOf(listeners, event)|
    }
  }

  /** The set `emit` leaves behind after visiting the first `i` callbacks:
      the visited ones minus their `once` closures, then the rest. */
  function Pending(callbacks: seq<Callback>, i: nat): seq<Callback>
    requires i <= |callbacks|
  {
    WithoutOnce(callbacks[..i]) + callbacks[i..]
  }

  lemma EmitStart(m: Registry, e: string)
    requires WellFormed(m)
    ensures m == Updated(m, e, Pending(ListenersOf(m, e), 0))
  {
    var callbacks := ListenersOf(m, e);
    assert Pending(callbacks, 0) == callbacks by {
      assert callbacks[..0] == [] && callbacks[0..] == callbacks;
    }
    UpdatedSame(m, e);
  }

  /** One step of `emit` over a `once` closure: its `off` leaves the earlier
      callbacks minus their closures, followed by the later ones. */
  lemma EmitStep(m0: Registry, e: string, i: nat)
    requires WellFormed(m0)
    requires i < |ListenersOf(m0, e)| && ListenersOf(m0, e)[i].OnceWrapper?
    ensures var callbacks := ListenersOf(m0, e);
      OffMap(Updated(m0, e, Pending(callbacks, i)), e, callbacks[i]) ==
      Updated(m0, e, Pending(callbacks, i + 1))
  {
    var callbacks := ListenersOf(m0, e);
    var cur := Updated(m0, e, Pending(callbacks, i));
    assert callbacks[i] in callbacks[i..];
    assert e in cur;
    assert Distinct(callbacks);
    RemovingOnceStep(callbacks, i);
    UpdatedTwice(m0, e, Pending(callbacks, i), Pending(callbacks, i + 1));
  }

  lemma RemovingOnceStep(callbacks: seq<Callback>, i: nat)
    requires Distinct(callbacks)
    requires i < |callbacks| && callbacks[i].OnceWrapper?
    ensures Removed(Pending(callbacks, i), callbacks[i]) == Pending(callbacks, i + 1)
  {
    var c := callbacks[i];
    var pre := WithoutOnce(callbacks[..i]);
    var post := callbacks[i + 1..];
    OnlyOnce(callbacks, i);
    assert Removed(pre, c) == pre;
    assert Removed(post, c) == post;
    assert callbacks[i..] == [c] + post;
    RemovedAppend([c], post, c);
    assert Removed([c], c) == [];
    RemovedAppend(pre, callbacks[i..], c);
    OnceDropped(callbacks, i);
  }

  /** A callback of a duplicate-free set occurs neither before nor after
      its own place. */
  lemma OnlyOnce(callbacks: seq<Callback>, i: nat)
    requires Distinct(callbacks) && i < |callbacks|
    ensures callbacks[i] !in callbacks[..i] && callbacks[i] !in callbacks[i + 1..]
  {
    var c := callbacks[i];
    forall k | 0 <= k < i ensures callbacks[..i][k] != c {
    }
    var post := callbacks[i + 1..];
    forall k | 0 <= k < |post| ensures post[k] != c {
      assert post[k] == callbacks[i + 1 + k];
    }
  }

  /** Visiting a `once` closure adds nothing to the visited part. */
  lemma OnceDropped(callbacks: seq<Callback>, i: nat)
    requires i < |callbacks| && callbacks[i].OnceWrapper?
    ensures WithoutOnce(callbacks[..i + 1]) == WithoutOnce(callbacks[..i])
  {
    var c := callbacks[i];
    assert callbacks[..i + 1] == callbacks[..i] + [c];
    WithoutOnceAppend(callbacks[..i], [c]);
    assert WithoutOnce([c]) == [];
  }

  /** One step of `emit` over any other callback: it stays where it was. */
  lemma KeepingStep(callbacks: seq<Callback>, i: nat)
    requires i < |callbacks| && !callbacks[i].OnceWrapper?
    ensures Pending(callbacks, i) == Pending(callbacks, i + 1)
  {
    var c := callbacks[i];
    assert callbacks[..i + 1] == callbacks[..i] + [c];
    WithoutOnceAppend(callbacks[..i], [c]);
    assert WithoutOnce([c]) == [c];
    assert callbacks[i..] == [c] + callbacks[i + 1..];
  }

  /** What `emit` leaves behind, once every callback has been visited:
      the event's set without its `once` closures, and the emitter's
      invariant kept. */
  lemma EmitKeepsValid(m: Registry, e: string, n: nat)
    requires WellFormed(m) && WrappersBelow(m, n)
    ensures var callbacks := ListenersOf(m, e);
      var r := Updated(m, e, Pending(callbacks, |callbacks|));
      && r == Updated(m, e, WithoutOnce(callbacks))
      && WellFormed(r) && WrappersBelow(r, n)
      && forall c :: c in ListenersOf(r, e) ==> !c.OnceWrapper?
  {
    var callbacks := ListenersOf(m, e);
    EmitDone(callbacks);
    var r := Updated(m, e, WithoutOnce(callbacks));
    UpdatedFrame(m, e, WithoutOnce(callbacks));
    forall k: string, c: Callback | k in r && c in r[k] ensures c.OnceWrapper? ==> c.serial < n {
      if k == e {
        assert r[k] == WithoutOnce(callbacks);
      } else {
        assert r[k] == m[k];
      }
    }
  }

  /** When `emit` is done, every callback has been visited. */
  lemma EmitDone(callbacks: seq<Callback>)
    ensures Pending(callbacks, |callbacks|) == WithoutOnce(callbacks)
  {
    assert callbacks[..|callbacks|] == callbacks;
    assert callbacks[|callbacks|..] == [];
  }
}
