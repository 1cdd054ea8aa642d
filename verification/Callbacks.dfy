/**
 The callback lists of util.c: entries are added at the head, found by a search, and called by a loop
 that has looked up the next entry before each call, as the called one may take itself out.
 */
module Callbacks {
  import opened ColodTypes

  datatype Callback = Callback(func: nat, userData: nat)

  predicate Distinct(s: seq<Callback>) {
    forall i, j :: 0 <= i < j < |s| ==> s[i] != s[j]
  }

  /** The list without the entries in `gone`, in the same order. */
  function Without(s: seq<Callback>, gone: set<Callback>): seq<Callback> {
    if s == [] then []
    else if s[0] in gone then Without(s[1..], gone)
    else [s[0]] + Without(s[1..], gone)
  }

  lemma {:induction false} WithoutMembers(s: seq<Callback>, gone: set<Callback>)
    ensures forall c :: c in Without(s, gone) ==> c in s && c !in gone
  {
    if s != [] {
      WithoutMembers(s[1..], gone);
    }
  }

  lemma {:induction false} WithoutConcat(a: seq<Callback>, b: seq<Callback>, gone: set<Callback>)
    ensures Without(a + b, gone) == Without(a, gone) + Without(b, gone)
  {
    if a == [] {
      assert a + b == b;
    } else {
      WithoutConcat(a[1..], b, gone);
      assert (a + b)[1..] == a[1..] + b;
    }
  }

  lemma {:induction false} WithoutDistinct(s: seq<Callback>, gone: set<Callback>)
    requires Distinct(s)
    ensures Distinct(Without(s, gone))
  {
    if s != [] {
      WithoutDistinct(s[1..], gone);
      WithoutMembers(s[1..], gone);
    }
  }

  /** Taking out one entry leaves those on either side of it. */
  lemma {:induction false} WithoutOne(s: seq<Callback>, i: nat)
    requires i < |s| && Distinct(s)
    ensures Without(s, {s[i]}) == s[..i] + s[i + 1..]
  {
    if i == 0 {
      WithoutOthers(s[1..], {s[0]});
    } else {
      WithoutOne(s[1..], i - 1);
      assert s[0] != s[1..][i - 1];
      assert s[1..][..i - 1] == s[1..i] && s[1..][i..] == s[i + 1..];
      assert [s[0]] + s[1..i] == s[..i];
    }
  }

  lemma {:induction false} WithoutOthers(s: seq<Callback>, gone: set<Callback>)
    requires forall c :: c in s ==> c !in gone
    ensures Without(s, gone) == s
  {
    if s != [] {
      WithoutOthers(s[1..], gone);
    }
  }

  /** The list in the middle of a notification: `k` of the entries have been called. */
  function During(all: seq<Callback>, k: nat, leaving: set<Callback>): seq<Callback>
    requires k <= |all|
  {
    Without(all[..k], leaving) + all[k..]
  }

  lemma DistinctConcat(a: seq<Callback>, b: seq<Callback>)
    requires Distinct(a) && Distinct(b) && forall c :: c in a ==> c !in b
    ensures Distinct(a + b)
  {
    forall i, j | 0 <= i < j < |a + b| ensures (a + b)[i] != (a + b)[j] {
      if i < |a| <= j {
        assert (a + b)[i] in a && (a + b)[j] in b;
      }
    }
  }

  lemma DuringDistinct(all: seq<Callback>, k: nat, leaving: set<Callback>)
    requires k <= |all| && Distinct(all)
    ensures Distinct(During(all, k, leaving))
  {
    WithoutDistinct(all[..k], leaving);
    WithoutMembers(all[..k], leaving);
    DistinctConcat(Without(all[..k], leaving), all[k..]);
  }

  lemma DuringEnds(all: seq<Callback>, leaving: set<Callback>)
    ensures During(all, 0, leaving) == all && During(all, |all|, leaving) == Without(all, leaving)
  {
    assert all[..|all|] == all && all[0..] == all;
  }

  /** What follows position `i`. */
  function After(s: seq<Callback>, i: nat): Option<Callback> {
    if i + 1 < |s| then Some(s[i + 1]) else None
  }

  /** One call: where the called entry is, what is after it, and what the list is afterwards. */
  lemma DuringStep(all: seq<Callback>, k: nat, leaving: set<Callback>) returns (at: nat)
    requires k < |all| && Distinct(all)
    ensures var now := During(all, k, leaving);
      && at < |now| && now[at] == all[k] && After(now, at) == After(all, k)
      && During(all, k + 1, leaving) == if all[k] in leaving then Without(now, {all[k]}) else now
  {
    var now, before := During(all, k, leaving), Without(all[..k], leaving);
    at := |before|;
    assert now == before + [all[k]] + all[k + 1..];
    assert Without(all[..k + 1], leaving) == before + Without([all[k]], leaving) by {
      WithoutConcat(all[..k], [all[k]], leaving);
      assert all[..k + 1] == all[..k] + [all[k]];
    }
    assert Without(now, {all[k]}) == before + all[k + 1..] by {
      DuringDistinct(all, k, leaving);
      WithoutOne(now, at);
    }
    assert Without([all[k]], leaving) == if all[k] in leaving then [] else [all[k]];
  }

  class CallbackHead {
    var entries: seq<Callback>

    ghost predicate Valid()
      reads this
    {
      Distinct(entries)
    }

    constructor ()
      ensures Valid() && entries == []
    {
      entries := [];
    }

    /** colod_callback_find: where the entry is */
    method Find(cb: Callback) returns (at: Option<nat>)
      ensures at.Some? ==> at.value < |entries| && entries[at.value] == cb && cb !in entries[..at.value]
      ensures at.None? ==> cb !in entries
    {
      var i := 0;
      while i < |entries|
        invariant 0 <= i <= |entries| && cb !in entries[..i]
      {
        if entries[i] == cb {
          return Some(i);
        }
        i := i + 1;
      }
      return None;
    }

    /** colod_callback_add, whose assert is the precondition */
    method Add(cb: Callback)
      requires Valid() && cb !in entries
      modifies this
      ensures Valid() && entries == [cb] + old(entries)
    {
      entries := [cb] + entries;
    }

    /** colod_callback_del, whose assert is the precondition */
    method Del(cb: Callback)
      requires Valid() && cb in entries
      modifies this
      ensures Valid() && entries == Without(old(entries), {cb})
    {
      var at := Find(cb);
      WithoutOne(entries, at.value);
      WithoutDistinct(entries, {cb});
      entries := entries[..at.value] + entries[at.value + 1..];
    }

    /** colod_callback_clear */
    method Clear()
      modifies this
      ensures entries == []
    {
      while entries != []
        decreases |entries|
      {
        entries := entries[1..];
      }
    }

    /** The entry after `cb`: what le_next points to */
    method NextOf(cb: Callback, ghost at: nat) returns (next: Option<Callback>)
      requires Valid() && at < |entries| && entries[at] == cb
      ensures next == After(entries, at)
    {
      var found := Find(cb);
      next := After(entries, found.value);
    }

    /**
     The notify loops, over callbacks of which those in `leaving` take themselves out when called: every
     entry that was there at the start is called once, in order, and exactly those in `leaving` are gone.
     */
    method Notify(leaving: set<Callback>) returns (called: seq<Callback>)
      requires Valid()
      modifies this
      ensures Valid()
      ensures called == old(entries)
      ensures entries == Without(old(entries), leaving)
    {
      hide Without, During;
      ghost var all := entries;
      DuringEnds(all, leaving);
      called := [];
      var entry := if entries == [] then None else Some(entries[0]);
      while entry.Some?
        invariant |called| <= |all| && called == all[..|called|]
        invariant entries == During(all, |called|, leaving)
        invariant entry == if |called| < |all| then Some(all[|called|]) else None
        invariant Valid()
        decreases |all| - |called|
      {
        ghost var at := DuringStep(all, |called|, leaving);
        DuringDistinct(all, |called| + 1, leaving);
        var next := NextOf(entry.value, at);
        if entry.value in leaving {
          Del(entry.value);
        }
        called := called + [entry.value];
        entry := next;
      }
    }
  }
}
