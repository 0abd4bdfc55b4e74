/**
 The `resource_leases` table of one tenant, the operations of `ResourceLeaseRepository`, and
 what they promise over whole histories: one live holder per key, and at most as many live
 holders as there are slots.
 */
module ResourceLeases {
  import opened Basics

  datatype Lease = Lease(owner: string, fence: nat, until: Option<int>)

  type Leases = map<string, Lease>

  predicate Grantable(t: Leases, key: string, owner: string, now: int) {
    key in t ==> t[key].owner == owner || t[key].until.None? || t[key].until.value < now
  }

  /** The fence a grant returns. */
  function NextFence(t: Leases, key: string): nat {
    if key in t then t[key].fence + 1 else 1
  }

  function AfterAcquire(t: Leases, key: string, owner: string, seconds: int, now: int): Leases {
    if Grantable(t, key, owner, now) then t[key := Lease(owner, NextFence(t, key), Some(now + seconds))] else t
  }

  predicate Holds(t: Leases, key: string, owner: string, fence: nat) {
    key in t && t[key].owner == owner && t[key].fence == fence
  }

  predicate Beats(t: Leases, key: string, owner: string, fence: nat, now: int) {
    Holds(t, key, owner, fence) && t[key].until.Some? && t[key].until.value > now
  }

  function AfterBeat(t: Leases, key: string, owner: string, fence: nat, seconds: int, now: int): Leases {
    if Beats(t, key, owner, fence, now) then t[key := t[key].(until := Some(now + seconds))] else t
  }

  function AfterRelease(t: Leases, key: string, owner: string, fence: nat): Leases {
    if Holds(t, key, owner, fence) then t[key := t[key].(owner := "", until := None)] else t
  }

  class LeaseTable {
    var rows: Leases

    constructor ()
      ensures rows == map[]
    {
      rows := map[];
    }

    method Acquire(key: string, owner: string, seconds: int, now: int) returns (fence: Option<nat>)
      modifies this
      ensures rows == AfterAcquire(old(rows), key, owner, seconds, now)
      ensures fence == if Grantable(old(rows), key, owner, now) then Some(NextFence(old(rows), key)) else None
      ensures fence.Some? ==> Holds(rows, key, owner, fence.value)
      ensures fence.Some? <==>
                key !in old(rows) || old(rows)[key].owner == owner
                || old(rows)[key].until.None? || old(rows)[key].until.value < now
      ensures fence.Some? ==>
                && fence.value == (if key in old(rows) then old(rows)[key].fence else 0) + 1
                && rows == old(rows)[key := Lease(owner, fence.value, Some(now + seconds))]
    {
      if key !in rows {
        rows := rows[key := Lease(owner, 1, Some(now + seconds))];
        return Some(1);
      }
      var held := rows[key];
      if held.owner == owner || held.until.None? || held.until.value < now {
        rows := rows[key := Lease(owner, held.fence + 1, Some(now + seconds))];
        return Some(held.fence + 1);
      }
      return None;
    }

    method Heartbeat(key: string, owner: string, fence: nat, seconds: int, now: int) returns (alive: bool)
      modifies this
      ensures alive <==> Beats(old(rows), key, owner, fence, now)
      ensures rows == AfterBeat(old(rows), key, owner, fence, seconds, now)
      ensures alive <==>
                && key in old(rows) && old(rows)[key].owner == owner && old(rows)[key].fence == fence
                && old(rows)[key].until.Some? && now < old(rows)[key].until.value
      ensures alive ==> key in old(rows) && rows == old(rows)[key := Lease(owner, fence, Some(now + seconds))]
    {
      if key !in rows || rows[key].owner != owner || rows[key].fence != fence {
        return false;
      }
      if rows[key].until.None? || rows[key].until.value <= now {
        return false;
      }
      rows := rows[key := rows[key].(until := Some(now + seconds))];
      return true;
    }

    method Release(key: string, owner: string, fence: nat) returns (released: bool)
      modifies this
      ensures released <==> Holds(old(rows), key, owner, fence)
      ensures rows == AfterRelease(old(rows), key, owner, fence)
      ensures released <==> key in old(rows) && old(rows)[key].owner == owner && old(rows)[key].fence == fence
      ensures released ==> rows == old(rows)[key := Lease("", fence, None)]
    {
      if key !in rows || rows[key].owner != owner || rows[key].fence != fence {
        return false;
      }
      rows := rows[key := rows[key].(owner := "", until := None)];
      return true;
    }

    /** A replay run takes the first slot key that is free to it. */
    method AcquireSlot(keys: seq<string>, owner: string, seconds: int, now: int) returns (slot: Option<(string, nat)>)
      modifies this
      ensures slot.None? ==> rows == old(rows) && forall k | k in keys :: !Grantable(old(rows), k, owner, now)
      ensures slot.Some? ==>
                && slot.value.0 in keys && Grantable(old(rows), slot.value.0, owner, now)
                && slot.value.1 == NextFence(old(rows), slot.value.0)
                && rows == AfterAcquire(old(rows), slot.value.0, owner, seconds, now)
      ensures slot.Some? ==>
                exists i | 0 <= i < |keys| ::
                  keys[i] == slot.value.0 && forall j | 0 <= j < i :: !Grantable(old(rows), keys[j], owner, now)
    {
      for i := 0 to |keys|
        invariant rows == old(rows)
        invariant forall j | 0 <= j < i :: !Grantable(old(rows), keys[j], owner, now)
      {
        var fence := Acquire(keys[i], owner, seconds, now);
        if fence.Some? {
          return Some((keys[i], fence.value));
        }
      }
      return None;
    }
  }

  // ---- histories ----

  datatype Event =
    | Acquire(key: string, owner: string, seconds: int)
    | Heartbeat(key: string, owner: string, fence: nat, seconds: int)
    | Release(key: string, owner: string, fence: nat)

  datatype Timed = At(now: int, event: Event)

  type History = seq<Timed>

  function Step(t: Leases, x: Timed): Leases {
    match x.event
    case Acquire(key, owner, seconds) => AfterAcquire(t, key, owner, seconds, x.now)
    case Heartbeat(key, owner, fence, seconds) => AfterBeat(t, key, owner, fence, seconds, x.now)
    case Release(key, owner, fence) => AfterRelease(t, key, owner, fence)
  }

  function After(h: History): Leases {
    if h == [] then map[] else Step(After(h[..|h| - 1]), h[|h| - 1])
  }

  lemma AfterNext(h: History, i: nat)
    requires i < |h|
    ensures After(h[..i + 1]) == Step(After(h[..i]), h[i])
  {
    assert h[..i + 1][..i] == h[..i];
  }

  /** Event `i` is an acquire that the table grants. */
  predicate Granted(h: History, i: nat)
    requires i < |h|
  {
    h[i].event.Acquire? && Grantable(After(h[..i]), h[i].event.key, h[i].event.owner, h[i].now)
  }

  function GrantFence(h: History, i: nat): nat
    requires i < |h| && Granted(h, i)
  {
    NextFence(After(h[..i]), h[i].event.key)
  }

  lemma {:induction false} FenceNeverFalls(h: History, i: nat, j: nat, key: string)
    requires i <= j <= |h| && key in After(h[..i])
    ensures key in After(h[..j]) && After(h[..j])[key].fence >= After(h[..i])[key].fence
    decreases j
  {
    if i < j {
      FenceNeverFalls(h, i, j - 1, key);
      AfterNext(h, j - 1);
    }
  }

  /** Two grants of one key never return the same fence: the later one is larger. */
  lemma GrantsIncrease(h: History, i: nat, j: nat)
    requires i < j < |h| && Granted(h, i) && Granted(h, j) && h[i].event.key == h[j].event.key
    ensures GrantFence(h, i) < GrantFence(h, j)
  {
    AfterNext(h, i);
    FenceNeverFalls(h, i + 1, j, h[i].event.key);
  }

  /** The grant of event `i` can still heartbeat after the whole history, at clock `now`. */
  predicate Live(h: History, i: nat, now: int)
    requires i < |h|
  {
    Granted(h, i) && Beats(After(h), h[i].event.key, h[i].event.owner, GrantFence(h, i), now)
  }

  /** At any moment at most one of all grants of a key ever made can heartbeat. */
  lemma OneLiveHolder(h: History, i: nat, j: nat, now: int)
    requires i < |h| && j < |h| && Live(h, i, now) && Live(h, j, now)
    requires h[i].event.key == h[j].event.key
    ensures i == j
  {
    if i < j { GrantsIncrease(h, i, j); }
    if j < i { GrantsIncrease(h, j, i); }
  }

  /** An injection bounds the size of its domain. */
  lemma {:induction false} InjectionBound(s: set<nat>, f: map<nat, string>, image: set<string>)
    requires s <= f.Keys
    requires forall i | i in s :: f[i] in image
    requires forall i, j | i in s && j in s && f[i] == f[j] :: i == j
    ensures |s| <= |image|
    decreases s
  {
    if s != {} {
      var x :| x in s;
      InjectionBound(s - {x}, f, image - {f[x]});
      assert |s - {x}| == |s| - 1 && |image - {f[x]}| == |image| - 1;
    }
  }

  /** The grants on the given slot keys that are live at `now`. */
  function LiveOn(h: History, slots: set<string>, now: int): set<nat> {
    set i: nat | i < |h| && Live(h, i, now) && h[i].event.key in slots
  }

  /** With N replay slots at most N runs hold a live slot, whatever has been acquired, lost or released. */
  lemma SlotBound(h: History, slots: set<string>, now: int)
    ensures |LiveOn(h, slots, now)| <= |slots|
  {
    var live := LiveOn(h, slots, now);
    var keyOf := map i | i in live :: h[i].event.key;
    forall i, j | i in live && j in live && keyOf[i] == keyOf[j] ensures i == j {
      OneLiveHolder(h, i, j, now);
    }
    InjectionBound(live, keyOf, slots);
  }

  lemma FenceAtEnd(h: History, j: nat)
    requires j < |h| && Granted(h, j)
    ensures h[j].event.key in After(h) && After(h)[h[j].event.key].fence >= GrantFence(h, j)
  {
    AfterNext(h, j);
    assert h[..|h|] == h;
    FenceNeverFalls(h, j + 1, |h|, h[j].event.key);
  }

  // ---- the table as its history tells it ----

  /** While a holder can heartbeat no acquire of another owner is granted. */
  lemma LiveKeepsOthersOut(t: Leases, key: string, holder: string, fence: nat, owner: string, now: int)
    requires Beats(t, key, holder, fence, now) && owner != holder
    ensures !Grantable(t, key, owner, now)
  {
  }

  /** ... and over histories: while grant `i` is live, nobody else is granted its key. */
  lemma LiveIsNotTaken(h: History, i: nat, n: nat)
    requires i < n < |h| && Live(h[..n], i, h[n].now)
    requires h[n].event.Acquire? && h[n].event.key == h[i].event.key && h[n].event.owner != h[i].event.owner
    ensures !Granted(h, n)
  {
    assert h[..n][..i] == h[..i];
    hide After;
  }

  /** Grant `i` is the last one of its key before event `n`. */
  ghost predicate LastGrant(h: History, i: nat, n: nat) {
    && i < n <= |h| && Granted(h, i)
    && forall j | i < j < n :: !(h[j].event.Acquire? && h[j].event.key == h[i].event.key && Granted(h, j))
  }

  /** The holder of grant `i` has released it before event `n`. */
  predicate GivenUp(h: History, i: nat, n: nat)
    requires i < n <= |h| && Granted(h, i)
  {
    exists j | i < j < n :: h[j].event == Release(h[i].event.key, h[i].event.owner, GrantFence(h, i))
  }

  /** The row is as its holder left it: given up, or kept until `due`. */
  predicate Kept(l: Lease, owner: string, fence: nat, gone: bool, due: int) {
    l.fence == fence && if gone then l.owner == "" && l.until == None else l.owner == owner && l.until == Some(due)
  }

  predicate InTime(x: Timed, key: string, owner: string, fence: nat, gone: bool, due: int) {
    && x.event.Heartbeat? && x.event.key == key && x.event.owner == owner && x.event.fence == fence
    && x.now < due && !gone
  }

  /** The holder's heartbeats push the deadline of grant `i`, as long as they come in time and before a release. */
  function Deadline(h: History, i: nat, n: nat): int
    requires i < n <= |h| && Granted(h, i)
    decreases n
  {
    if n == i + 1 then h[i].now + h[i].event.seconds
    else
      var before, x, e := Deadline(h, i, n - 1), h[n - 1], h[i].event;
      if InTime(x, e.key, e.owner, GrantFence(h, i), GivenUp(h, i, n - 1), before) then x.now + x.event.seconds else before
  }

  lemma KeptNext(t: Leases, x: Timed, key: string, owner: string, fence: nat, gone: bool, due: int)
    requires key in t && Kept(t[key], owner, fence, gone, due)
    requires x.event.Acquire? && x.event.key == key ==> !Grantable(t, key, x.event.owner, x.now)
    ensures key in Step(t, x)
    ensures Kept(Step(t, x)[key], owner, fence, gone || x.event == Release(key, owner, fence),
                 if InTime(x, key, owner, fence, gone, due) then x.now + x.event.seconds else due)
  {
  }

  lemma GivenUpNext(h: History, i: nat, n: nat)
    requires i < n < |h| && Granted(h, i)
    ensures GivenUp(h, i, n + 1)
            <==> GivenUp(h, i, n) || h[n].event == Release(h[i].event.key, h[i].event.owner, GrantFence(h, i))
  {
    if GivenUp(h, i, n) {
      var j :| i < j < n && h[j].event == Release(h[i].event.key, h[i].event.owner, GrantFence(h, i));
      assert i < j < n + 1;
    }
  }

  /** The row of a key is what the events since its last grant say: its fence, and its deadline unless it was given up. */
  lemma {:induction false} RowTells(h: History, i: nat, n: nat)
    requires LastGrant(h, i, n)
    ensures h[i].event.key in After(h[..n])
    ensures Kept(After(h[..n])[h[i].event.key], h[i].event.owner, GrantFence(h, i), GivenUp(h, i, n), Deadline(h, i, n))
    decreases n
  {
    AfterNext(h, n - 1);
    if n == i + 1 {
      hide After;
    } else {
      hide After, Step, Kept;
      RowTells(h, i, n - 1);
      GivenUpNext(h, i, n - 1);
      KeptNext(After(h[..n - 1]), h[n - 1], h[i].event.key, h[i].event.owner, GrantFence(h, i),
               GivenUp(h, i, n - 1), Deadline(h, i, n - 1));
    }
  }

  /**
   When an acquire is granted: to the last holder again at any time, to another owner exactly if that holder has
   released the key or let its deadline pass.
   */
  lemma {:induction false} GrantedExactly(h: History, i: nat, n: nat)
    requires LastGrant(h, i, n) && n < |h| && h[n].event.Acquire? && h[n].event.key == h[i].event.key
    ensures Granted(h, n) <==>
              h[n].event.owner == h[i].event.owner || GivenUp(h, i, n) || Deadline(h, i, n) < h[n].now
  {
    RowTells(h, i, n);
  }

  /** A key that was never granted is free to everybody. */
  lemma {:induction false} FirstIsGranted(h: History, n: nat)
    requires n < |h| && h[n].event.Acquire?
    requires forall j | 0 <= j < n :: !(h[j].event.Acquire? && h[j].event.key == h[n].event.key && Granted(h, j))
    ensures Granted(h, n) && GrantFence(h, n) == 1
  {
    NeverGranted(h, n, h[n].event.key);
  }

  lemma {:induction false} NeverGranted(h: History, n: nat, key: string)
    requires n <= |h| && forall j | 0 <= j < n :: !(h[j].event.Acquire? && h[j].event.key == key && Granted(h, j))
    ensures key !in After(h[..n])
  {
    if n > 0 {
      NeverGranted(h, n - 1, key);
      AfterNext(h, n - 1);
    }
  }

  /** A grant is live exactly if it is the last of its key, was not given up and its deadline lies ahead. */
  lemma {:induction false} LiveExactly(h: History, i: nat, now: int)
    requires i < |h| && Granted(h, i)
    ensures Live(h, i, now) <==> LastGrant(h, i, |h|) && !GivenUp(h, i, |h|) && now < Deadline(h, i, |h|)
  {
    assert h[..|h|] == h;
    if LastGrant(h, i, |h|) {
      RowTells(h, i, |h|);
    } else {
      var j :| i < j < |h| && h[j].event.Acquire? && h[j].event.key == h[i].event.key && Granted(h, j);
      TakenOver(h, i, j, now);
    }
  }

  /** A lease that expired and was taken by another owner is fenced out for its former holder. */
  lemma {:induction false} TakenOver(h: History, i: nat, j: nat, now: int)
    requires i < j < |h| && Granted(h, i) && Granted(h, j) && h[i].event.key == h[j].event.key
    ensures !Live(h, i, now)
    ensures AfterRelease(After(h), h[i].event.key, h[i].event.owner, GrantFence(h, i)) == After(h)
  {
    GrantsIncrease(h, i, j);
    FenceAtEnd(h, j);
  }
}
