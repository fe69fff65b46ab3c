/** src/core/services/service_manager.c: the service registry, a growable
    array of (tag, instance) entries whose tags are pairwise distinct. */
module Services {
  import opened Handles

  /** The service tags of service_manager.h, in declaration order. */
  datatype ServiceType =
    | INPUT_SERVICE
    | STATE_MANAGER_SERVICE
    | AUDIO_SERVICE
    | SETTINGS_MANAGER_SERVICE
    | EVENT_BUS_SERVICE
    | RESOURCE_MANAGER_SERVICE
    | CLOCK_SERVICE
    | RENDER_SERVICE

  datatype Entry = Entry(tag: ServiceType, instance: Ptr)

  /** Filler for buffer slots past `count`, whose contents the registry never reads. */
  const Unused := Entry(INPUT_SERVICE, Null)

  // ---- specification of the entry list ------------------------------------

  /** Position of the first entry tagged `t`, or -1: what `find_index` returns. */
  function IndexOf(s: seq<Entry>, t: ServiceType): (r: int)
    ensures -1 <= r < |s|
    ensures r >= 0 ==> s[r].tag == t && forall j :: 0 <= j < r ==> s[j].tag != t
    ensures r == -1 <==> forall j :: 0 <= j < |s| ==> s[j].tag != t
  {
    var k := FirstIndex(s, (e: Entry) => e.tag == t);
    if k == |s| then -1 else k
  }

  /** The instance bound to `t`, or NULL. */
  function Lookup(s: seq<Entry>, t: ServiceType): Ptr {
    var i := IndexOf(s, t);
    if i >= 0 then s[i].instance else Null
  }

  ghost predicate UniqueTags(s: seq<Entry>) {
    forall i, j :: 0 <= i < j < |s| ==> s[i].tag != s[j].tag
  }

  /** The list after removing the entry tagged `t`, if any. */
  function Without(s: seq<Entry>, t: ServiceType): seq<Entry> {
    var i := IndexOf(s, t);
    if i < 0 then s else s[..i] + s[i + 1..]
  }

  lemma AppendKeepsUnique(s: seq<Entry>, e: Entry)
    requires UniqueTags(s) && IndexOf(s, e.tag) == -1
    ensures UniqueTags(s + [e])
  {
  }

  lemma RemoveKeepsUnique(s: seq<Entry>, t: ServiceType)
    requires UniqueTags(s)
    ensures UniqueTags(Without(s, t))
  {
    var i := IndexOf(s, t);
    if i >= 0 {
      var w := Without(s, t);
      forall a, b | 0 <= a < b < |w| ensures w[a].tag != w[b].tag {
        var a' := if a < i then a else a + 1;
        var b' := if b < i then b else b + 1;
        assert w[a] == s[a'] && w[b] == s[b'];
      }
    }
  }

  /** `IndexOf` is pinned down by its contract: any first match is the answer. */
  lemma IndexOfIs(s: seq<Entry>, t: ServiceType, k: int)
    requires -1 <= k < |s|
    requires k >= 0 ==> s[k].tag == t && forall j :: 0 <= j < k ==> s[j].tag != t
    requires k == -1 ==> forall j :: 0 <= j < |s| ==> s[j].tag != t
    ensures IndexOf(s, t) == k
  {
  }

  /** A new binding is visible to `get`, and no other tag's binding moves. */
  lemma LookupAfterAppend(s: seq<Entry>, t: ServiceType, x: Ptr, u: ServiceType)
    requires IndexOf(s, t) == -1
    ensures Lookup(s + [Entry(t, x)], t) == x
    ensures u != t ==> Lookup(s + [Entry(t, x)], u) == Lookup(s, u)
  {
    IndexAfterAppend(s, t, x, t);
    if u != t {
      IndexAfterAppend(s, t, x, u);
    }
  }

  /** Appending an entry tagged `t` puts the first `t` at the end when there
      was none, and moves no other tag's first match. */
  lemma IndexAfterAppend(s: seq<Entry>, t: ServiceType, x: Ptr, u: ServiceType)
    requires IndexOf(s, t) == -1
    ensures IndexOf(s + [Entry(t, x)], u) == if u == t then |s| else IndexOf(s, u)
  {
    var s' := s + [Entry(t, x)];
    assert forall j :: 0 <= j < |s| ==> s'[j] == s[j];
    if u == t {
      IndexOfIs(s', t, |s|);
    } else {
      IndexOfIs(s', u, IndexOf(s, u));
    }
  }

  /** Index arithmetic of `Without`: the entries before the removed one stay,
      the ones after it move down one place. */
  lemma WithoutAt(s: seq<Entry>, i: int, w: seq<Entry>)
    requires 0 <= i < |s| && w == s[..i] + s[i + 1..]
    ensures |w| == |s| - 1
    ensures forall a :: 0 <= a < i ==> w[a] == s[a]
    ensures forall a :: i <= a < |w| ==> w[a] == s[a + 1]
  {
  }

  /** After removal the tag is unbound (tags being unique, there was one entry). */
  lemma LookupAfterRemove(s: seq<Entry>, t: ServiceType)
    requires UniqueTags(s)
    ensures Lookup(Without(s, t), t) == Null
  {
    var i := IndexOf(s, t);
    if i >= 0 {
      var w := s[..i] + s[i + 1..];
      WithoutAt(s, i, w);
      forall j | 0 <= j < |w| ensures w[j].tag != t {
        if j < i {
          assert w[j] == s[j];
        } else {
          assert w[j] == s[j + 1] && s[i].tag == t;
        }
      }
      IndexOfIs(w, t, -1);
    }
  }

  /** Removing an entry of another tag moves the first `u` down one place
      when it came after the removed entry, and nowhere otherwise. */
  lemma IndexAfterRemove(s: seq<Entry>, i: int, u: ServiceType)
    requires 0 <= i < |s| && s[i].tag != u
    ensures var k := IndexOf(s, u); var w := s[..i] + s[i + 1..];
      IndexOf(w, u) == (if k == -1 then -1 else if k < i then k else k - 1) &&
      (k >= 0 ==> w[IndexOf(w, u)] == s[k])
  {
    var w := s[..i] + s[i + 1..];
    WithoutAt(s, i, w);
    var k := IndexOf(s, u);
    var k' := if k == -1 then -1 else if k < i then k else k - 1;
    forall j | 0 <= j < |w| && (k' == -1 || j < k') ensures w[j].tag != u {
      if j < i { assert w[j] == s[j]; } else { assert w[j] == s[j + 1]; }
    }
    if k' >= 0 {
      if k < i { assert w[k'] == s[k]; } else { assert w[k'] == s[k]; }
    }
    IndexOfIs(w, u, k');
  }

  /** Removing one tag leaves every other tag's binding as it was. */
  lemma LookupAfterRemoveOther(s: seq<Entry>, t: ServiceType, u: ServiceType)
    requires u != t
    ensures Lookup(Without(s, t), u) == Lookup(s, u)
  {
    var i := IndexOf(s, t);
    if i >= 0 {
      var w := s[..i] + s[i + 1..];
      assert Without(s, t) == w;
      IndexAfterRemove(s, i, u);
      var k := IndexOf(s, u);
      assert Lookup(w, u) == if k >= 0 then s[k].instance else Null;
    }
  }

  // ---- the registry ---------------------------------------------------------

  class ServiceManager {
    /** The heap buffer: `|buf|` is `cap`, the first `count` slots are in use. */
    var buf: seq<Entry>
    var count: nat

    ghost predicate Valid()
      reads this
    {
      count <= |buf| &&
      UniqueTags(buf[..count]) &&
      forall i :: 0 <= i < count ==> buf[i].instance != Null
    }

    /** The registered entries, in registration order. */
    function Contents(): seq<Entry>
      reads this
      requires Valid()
    {
      buf[..count]
    }

    function Cap(): nat
      reads this
    {
      |buf|
    }

    /** `svc_create`: a zeroed registry (no buffer, no entries). */
    constructor ()
      ensures Valid() && Contents() == [] && Cap() == 0
    {
      buf, count := [], 0;
    }

    /** `find_index`: a linear scan for the first entry tagged `t`. */
    method FindIndex(t: ServiceType) returns (r: int)
      requires Valid()
      ensures r == IndexOf(Contents(), t)
    {
      var i := 0;
      while i < count
        invariant 0 <= i <= count
        invariant forall j :: 0 <= j < i ==> buf[j].tag != t
      {
        if buf[i].tag == t {
          r := i;
          assert buf[..count][i].tag == t;
          return;
        }
        i := i + 1;
      }
      r := -1;
    }

    /** `reserve`: grows the buffer to exactly `newcap` slots when it is smaller;
        the entries in use are kept (`realloc`). */
    method Reserve(newcap: nat)
      requires Valid()
      modifies this
      ensures Valid() && Contents() == old(Contents())
      ensures Cap() == if newcap <= old(Cap()) then old(Cap()) else newcap
      ensures Cap() >= newcap
    {
      if newcap <= |buf| {
        return;
      }
      buf := buf + seq(newcap - |buf|, _ => Unused);
      assert buf[..count] == old(buf[..count]);
    }

    /** `svc_register`: -1 for a NULL instance or a tag already bound (nothing
        changes); otherwise appends the entry and returns 0. */
    method Register(t: ServiceType, instance: Ptr) returns (r: int)
      requires Valid()
      modifies this
      ensures Valid()
      ensures r == 0 || r == -1
      ensures r == -1 <==> instance == Null || IndexOf(old(Contents()), t) >= 0
      ensures r == -1 ==> Contents() == old(Contents()) && Cap() == old(Cap())
      ensures r == 0 ==> Contents() == old(Contents()) + [Entry(t, instance)]
      ensures Cap() >= |Contents()|
    {
      if instance == Null {
        return -1;
      }
      var idx := FindIndex(t);
      if idx >= 0 {
        return -1;
      }
      ghost var before := Contents();
      Reserve(count + 1);
      assert count < |buf|;
      buf := buf[count := Entry(t, instance)];
      count := count + 1;
      assert Contents() == before + [Entry(t, instance)];
      AppendKeepsUnique(before, Entry(t, instance));
      r := 0;
    }

    /** `svc_get`: the instance bound to `t`, or NULL. */
    method Get(t: ServiceType) returns (r: Ptr)
      requires Valid()
      ensures r == Lookup(Contents(), t)
      ensures r == Null <==> IndexOf(Contents(), t) == -1
    {
      var idx := FindIndex(t);
      r := if idx >= 0 then buf[idx] .instance else Null;
    }

    /** `svc_unregister`: removes the entry tagged `t` with `memmove`, keeping the
        order of the others; an absent tag changes nothing. */
    method Unregister(t: ServiceType)
      requires Valid()
      modifies this
      ensures Valid()
      ensures Contents() == Without(old(Contents()), t)
      ensures Cap() == old(Cap())
    {
      var idx := FindIndex(t);
      if idx < 0 {
        return;
      }
      ghost var before := Contents();
      // the tail slides down one slot; the old last slot keeps its stale copy
      var moved := buf[..idx] + buf[idx + 1..count] + buf[count - 1..];
      assert forall i :: 0 <= i < count - 1 ==> moved[i] == before[if i < idx then i else i + 1];
      assert moved[..count - 1] == before[..idx] + before[idx + 1..];
      buf := moved;
      count := count - 1;
      RemoveKeepsUnique(before, t);
    }
  }

  /** Registering a tag twice keeps the first binding, and the second call fails. */
  method DuplicateRegistration(x: Ptr, y: Ptr) returns (r1: int, r2: int, got: Ptr)
    requires x != Null && y != Null
    ensures r1 == 0 && r2 == -1 && got == x
  {
    var sm := new ServiceManager();
    r1 := sm.Register(RENDER_SERVICE, x);
    r2 := sm.Register(RENDER_SERVICE, y);
    got := sm.Get(RENDER_SERVICE);
    LookupAfterAppend([], RENDER_SERVICE, x, RENDER_SERVICE);
  }
}
