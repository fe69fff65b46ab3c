/** src/core/event/event_bus.c: named channels, each a growable array of
    listener pointers. Channels are created on first use; emitting calls every
    listener of the channel in subscription order. Listeners are identities
    (`Ptr`); emitting records the calls it makes instead of running them. */
module EventBus {
  import opened Handles

  datatype EventType = EVENT_TYPE_SIGNAL | EVENT_TYPE_UPDATE | EVENT_TYPE_CUSTOM

  /** The `void *data` of an event: an opaque pointer, or a heap cell holding a
      `MenuSignal` value (what the menu allocates). */
  datatype EventData = DataPtr(p: Ptr) | SignalCell(signal: int)

  datatype Event = Event(kind: EventType, data: EventData)

  /** One listener call `listener(e)`. */
  datatype Invocation = Invocation(listener: Ptr, event: Event)

  /** The calls emitting `e` to `listeners` makes, in order. */
  function Invocations(listeners: seq<Ptr>, e: Event): (r: seq<Invocation>)
    ensures |r| == |listeners|
    ensures forall i :: 0 <= i < |r| ==> r[i] == Invocation(listeners[i], e)
  {
    if listeners == [] then [] else [Invocation(listeners[0], e)] + Invocations(listeners[1..], e)
  }

  /** Index of the first `x` in `s`, or `|s|`. */
  function IndexOf<T(==)>(s: seq<T>, x: T): (k: nat)
    ensures k <= |s|
    ensures forall j :: 0 <= j < k ==> s[j] != x
    ensures k < |s| ==> s[k] == x
    ensures k < |s| <==> x in s
  {
    FirstIndex(s, (y: T) => y == x)
  }

  /** `s` without its first `x`; unchanged when there is none. */
  function RemoveFirst<T(==)>(s: seq<T>, x: T): seq<T> {
    var k := IndexOf(s, x);
    if k == |s| then s else s[..k] + s[k + 1..]
  }

  /** Only the first copy of `x` goes; the others stay in order. */
  lemma RemoveFirstShape<T>(s: seq<T>, x: T)
    ensures x !in s ==> RemoveFirst(s, x) == s
    ensures x in s ==> |RemoveFirst(s, x)| == |s| - 1
    ensures x in s ==> multiset(RemoveFirst(s, x)) == multiset(s) - multiset{x}
  {
    var k := IndexOf(s, x);
    if x in s {
      assert k < |s|;
      assert s == s[..k] + [s[k]] + s[k + 1..];
    } else {
      assert k == |s|;
    }
  }

  ghost predicate Pow2(n: nat) {
    n == 1 || (n > 1 && n % 2 == 0 && Pow2(n / 2))
  }

  /** The growth rule of both arrays: 0 becomes 1; a full array doubles. */
  function Grown(cap: nat): (r: nat)
    ensures r > cap
    ensures cap == 0 || Pow2(cap) ==> Pow2(r)
  {
    if cap == 0 then 1 else cap * 2
  }

  /** `Channel`. */
  class Channel {
    const name: string
    var listeners: seq<Ptr>
    var cap: nat

    /** Count within capacity, and the capacity is 0 or a power of two. */
    ghost predicate Valid()
      reads this
    {
      |listeners| <= cap && (cap == 0 || Pow2(cap))
    }

    /** `channel_init`. */
    constructor (name: string)
      ensures Valid() && this.name == name && listeners == [] && cap == 0
    {
      this.name := name;
      listeners, cap := [], 0;
    }

    /** `channel_subscribe`: appends `fn` (duplicates allowed), growing a full
        array from 0 to 1 and then by doubling. */
    method Subscribe(fn: Ptr)
      requires Valid()
      modifies this
      ensures Valid()
      ensures listeners == old(listeners) + [fn]
      ensures cap == if old(|listeners|) == old(cap) then Grown(old(cap)) else old(cap)
    {
      if |listeners| == cap {
        cap := Grown(cap);
      }
      listeners := listeners + [fn];
    }

    /** `channel_unsubscribe`: removes the first listener equal to `fn` and
        closes the gap; an absent listener changes nothing. */
    method Unsubscribe(fn: Ptr)
      requires Valid()
      modifies this
      ensures Valid() && cap == old(cap)
      ensures listeners == RemoveFirst(old(listeners), fn)
    {
      var i := 0;
      while i < |listeners|
        invariant i <= |listeners| && listeners == old(listeners)
        invariant forall j :: 0 <= j < i ==> listeners[j] != fn
      {
        if listeners[i] == fn {
          assert IndexOf(listeners, fn) == i;
          listeners := listeners[..i] + listeners[i + 1..];
          return;
        }
        i := i + 1;
      }
      assert IndexOf(listeners, fn) == |listeners|;
    }

    /** `channel_destroy`: no listeners, no capacity. */
    method Destroy()
      modifies this
      ensures Valid() && listeners == [] && cap == 0
    {
      listeners, cap := [], 0;
    }
  }

  /** Index of the first channel called `name` in `names`, or `|names|`. */
  function FindIndex(names: seq<string>, name: string): (k: nat)
    ensures k <= |names|
    ensures forall j :: 0 <= j < k ==> names[j] != name
    ensures k < |names| ==> names[k] == name
    ensures k < |names| <==> name in names
  {
    IndexOf(names, name)
  }

  /** `EventBus`. */
  class Bus {
    var channels: seq<Channel>
    var cap: nat

    /** Count within capacity, distinct channel objects with distinct names,
        and every channel valid. */
    ghost predicate Valid()
      reads this, channels
    {
      |channels| <= cap && (cap == 0 || Pow2(cap)) &&
      (forall i, j :: 0 <= i < j < |channels| ==> channels[i] != channels[j]) &&
      (forall i, j :: 0 <= i < j < |channels| ==> channels[i].name != channels[j].name) &&
      forall i :: 0 <= i < |channels| ==> channels[i].Valid()
    }

    ghost function Names(): (r: seq<string>)
      reads this
      ensures |r| == |channels|
    {
      var cs := channels;
      seq(|cs|, i requires 0 <= i < |cs| => cs[i].name)
    }

    /** The listeners of the channel called `name`; none when there is no channel. */
    ghost function ListenersOf(name: string): seq<Ptr>
      reads this, channels
    {
      var k := FindIndex(Names(), name);
      if k < |channels| then channels[k].listeners else []
    }

    /** `bus_init`. */
    constructor ()
      ensures Valid() && channels == [] && cap == 0
    {
      channels, cap := [], 0;
    }

    /** `bus_find`: the first channel called `name`, or NULL. */
    method Find(name: string) returns (c: Channel?)
      requires Valid()
      ensures var k := FindIndex(Names(), name);
        (k == |channels| ==> c == null) && (k < |channels| ==> c == channels[k])
    {
      var i := 0;
      while i < |channels|
        invariant i <= |channels|
        invariant forall j :: 0 <= j < i ==> Names()[j] != name
      {
        if channels[i].name == name {
          assert Names()[i] == name;
          assert FindIndex(Names(), name) == i;
          return channels[i];
        }
        i := i + 1;
      }
      assert FindIndex(Names(), name) == |channels|;
      return null;
    }

    /** `bus_get_or_create`: the existing channel of that name, or a new empty
        channel appended at the end (growing the array from 0 to 1, then by
        doubling). Names stay unique. */
    method GetOrCreate(name: string) returns (c: Channel)
      requires Valid()
      modifies this
      ensures Valid() && c.name == name
      ensures Names() == if name in old(Names()) then old(Names()) else old(Names()) + [name]
      ensures name in old(Names()) ==>
        channels == old(channels) && cap == old(cap) && c == channels[FindIndex(old(Names()), name)]
      ensures name !in old(Names()) ==>
        fresh(c) && c.listeners == [] && c.cap == 0 && channels == old(channels) + [c] &&
        cap == (if old(|channels|) == old(cap) then Grown(old(cap)) else old(cap))
    {
      var found := Find(name);
      if found != null {
        return found;
      }
      assert name !in Names();
      assert forall i :: 0 <= i < |channels| ==> channels[i].name == Names()[i] != name;
      if |channels| == cap {
        cap := Grown(cap);
      }
      c := new Channel(name);
      channels := channels + [c];
      assert Names() == old(Names()) + [name];
    }

    /** `bus_subscribe`: `fn` goes at the end of the listeners of the channel
        called `name`, which is created when missing; every other channel is
        untouched. */
    method Subscribe(name: string, fn: Ptr)
      requires Valid()
      modifies this, channels
      ensures Valid()
      ensures Names() == if name in old(Names()) then old(Names()) else old(Names()) + [name]
      ensures ListenersOf(name) == old(ListenersOf(name)) + [fn]
      ensures forall n :: n != name ==> ListenersOf(n) == old(ListenersOf(n))
    {
      ghost var oldNames := Names();
      ghost var oldChannels := channels;
      var c := GetOrCreate(name);
      ghost var k := FindIndex(Names(), name);
      assert c == channels[k];
      c.Subscribe(fn);
      assert Names() == (if name in oldNames then oldNames else oldNames + [name]);
      forall n | n != name
        ensures ListenersOf(n) == old(ListenersOf(n))
      {
        var kn := FindIndex(Names(), n);
        if name !in oldNames {
          IndexOfAppend(oldNames, name, n);
        }
        assert kn < |oldChannels| ==> kn == FindIndex(oldNames, n);
        assert kn >= |oldChannels| ==> FindIndex(oldNames, n) == |oldNames|;
        if kn < |oldChannels| {
          assert kn != k;
          assert channels[kn] == oldChannels[kn] != c;
        }
      }
    }

    /** `bus_emit`: the listeners of the first channel called `name`, each
        called once with the same event, in list order; an unknown channel
        calls nothing and no channel is created (nothing is modified). */
    method Emit(name: string, e: Event) returns (calls: seq<Invocation>)
      requires Valid()
      ensures calls == Invocations(ListenersOf(name), e)
      ensures name !in Names() ==> calls == []
    {
      var c := Find(name);
      calls := [];
      if c != null {
        var i := 0;
        while i < |c.listeners|
          invariant i <= |c.listeners|
          invariant calls == Invocations(c.listeners[..i], e)
        {
          InvocationsAppend(c.listeners[..i], c.listeners[i], e);
          assert c.listeners[..i + 1] == c.listeners[..i] + [c.listeners[i]];
          calls := calls + [Invocation(c.listeners[i], e)];
          i := i + 1;
        }
        assert c.listeners[..i] == c.listeners;
      } else {
        assert FindIndex(Names(), name) == |channels|;
      }
    }

    /** `bus_destroy`: every channel destroyed, then zero channels and capacity. */
    method Destroy()
      requires Valid()
      modifies this, channels
      ensures Valid() && channels == [] && cap == 0
      ensures forall c :: c in old(channels) ==> c.listeners == [] && c.cap == 0
    {
      var i := 0;
      while i < |channels|
        invariant i <= |channels| && channels == old(channels)
        invariant forall j :: 0 <= j < i ==> channels[j].listeners == [] && channels[j].cap == 0
        modifies channels
      {
        channels[i].Destroy();
        i := i + 1;
      }
      channels, cap := [], 0;
    }
  }

  lemma {:induction false} InvocationsAppend(s: seq<Ptr>, x: Ptr, e: Event)
    ensures Invocations(s + [x], e) == Invocations(s, e) + [Invocation(x, e)]
  {
    if s != [] {
      assert (s + [x])[1..] == s[1..] + [x];
      InvocationsAppend(s[1..], x, e);
    }
  }

  lemma IndexOfAppend<T>(s: seq<T>, x: T, y: T)
    requires x != y
    ensures IndexOf(s + [x], y) == if y in s then IndexOf(s, y) else |s| + 1
  {
    var k := IndexOf(s, y);
    var k2 := IndexOf(s + [x], y);
    assert forall j :: 0 <= j < |s| ==> (s + [x])[j] == s[j];
  }

  /** Subscribing and then unsubscribing a listener that was not there yet
      restores the channel's list. */
  lemma SubscribeUnsubscribe(listeners: seq<Ptr>, fn: Ptr)
    requires fn !in listeners
    ensures RemoveFirst(listeners + [fn], fn) == listeners
  {
    var k := IndexOf(listeners + [fn], fn);
    assert forall j :: 0 <= j < |listeners| ==> (listeners + [fn])[j] == listeners[j];
  }
}
