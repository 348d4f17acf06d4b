/** The cache of subscriptions that components hold and let go: `acquire`, `release` and `useWatch` of stores/watch.ts. */
module WatchCache {
  import opened Text

  /** `keyOf`: the parameters of the watch as JSON. */
  type Key = string

  /** A reference to an entry; what it refers to is in `objects`. */
  type Ref = nat

  datatype Entry = Entry(
    key: Key, refs: int,
    sub: Option<nat>,  // its subscription, by the gateway's id
    error: bool, synced: bool,
    timer: Option<nat>  // `releaseTimer`
  )

  datatype State = State(
    objects: map<Ref, Entry>,  // every entry ever made, cached or not
    entries: map<Key, Ref>,
    live: map<nat, Ref>,       // the gateway's open subscriptions, and the entry each one feeds
    due: map<nat, Ref>,        // the timers that are set, and the entry each one would collect
    next: nat,
    holders: multiset<Ref>     // the components' references
  )

  predicate Cached(s: State, e: Ref)
  {
    e in s.objects && s.objects[e].key in s.entries && s.entries[s.objects[e].key] == e
  }

  /** It counts its holders, and owns the subscription and the timer it names. */
  predicate EntryOk(s: State, e: Ref)
    requires e in s.objects
  {
    var entry := s.objects[e];
    && entry.refs == s.holders[e]
    && (entry.sub.Some? ==> entry.sub.value in s.live && s.live[entry.sub.value] == e)
    && (entry.timer.Some? ==> entry.timer.value in s.due && s.due[entry.timer.value] == e)
  }

  predicate SubOk(s: State, sub: nat)
    requires sub in s.live
  {
    sub < s.next && Cached(s, s.live[sub]) && s.objects[s.live[sub]].sub == Some(sub)
  }

  predicate TimerOk(s: State, t: nat)
    requires t in s.due
  {
    t < s.next && Cached(s, s.due[t]) && s.objects[s.due[t]].timer == Some(t)
  }

  predicate KeyOk(s: State, key: Key)
    requires key in s.entries
  {
    s.entries[key] in s.objects && s.objects[s.entries[key]].key == key && EntryOk(s, s.entries[key])
  }

  /** A timer is set for the entries nobody holds. */
  predicate Collectable(s: State, e: Ref)
    requires e in s.objects
  {
    s.objects[e].refs == 0 <==> s.objects[e].timer.Some?
  }

  /** A held entry is cached; an open subscription belongs to the one cached entry that names it. */
  predicate Ok(s: State)
  {
    && (forall e | e in s.objects :: e < s.next)
    && (forall key | key in s.entries :: KeyOk(s, key))
    && (forall e | e in s.holders :: Cached(s, e))
    && (forall sub | sub in s.live :: SubOk(s, sub))
    && (forall t | t in s.due :: TimerOk(s, t))
  }

  const EMPTY := State(map[], map[], map[], map[], 0, multiset{})

  function Set(s: State, e: Ref, entry: Entry): State
  {
    s.(objects := s.objects[e := entry])
  }

  function Open(s: State, e: Ref): State
    requires e in s.objects
  {
    Set(s, e, s.objects[e].(sub := Some(s.next))).(live := s.live[s.next := e], next := s.next + 1)
  }

  /** The entry for `key`, made and cached if it was not there. */
  function LookUp(s: State, key: Key): State
  {
    if key in s.entries then s
    else Set(s, s.next, Entry(key, 0, None, false, false, None)).(entries := s.entries[key := s.next], next := s.next + 1)
  }

  function Hold(s: State, e: Ref): State
    requires e in s.objects
  {
    var entry := s.objects[e];
    Set(s, e, entry.(timer := None, refs := entry.refs + 1)).(
      due := if entry.timer.Some? then s.due - {entry.timer.value} else s.due,
      holders := s.holders + multiset{e})
  }

  function OpenIfNeeded(s: State, e: Ref): State
    requires e in s.objects
  {
    if s.objects[e].sub.None? && !s.objects[e].error then Open(s, e) else s
  }

  /** Where the cache refers to, there is an entry. */
  predicate Defined(s: State, key: Key)
  {
    key in s.entries ==> s.entries[key] in s.objects
  }

  function Acquired(s: State, key: Key): State
    requires Defined(s, key)
  {
    var found := LookUp(s, key);
    OpenIfNeeded(Hold(found, found.entries[key]), found.entries[key])
  }

  function Drop(s: State, e: Ref): State
    requires e in s.objects
  {
    Set(s, e, s.objects[e].(refs := s.objects[e].refs - 1)).(holders := s.holders - multiset{e})
  }

  function Arm(s: State, e: Ref): State
    requires e in s.objects
  {
    Set(s, e, s.objects[e].(timer := Some(s.next))).(due := s.due[s.next := e], next := s.next + 1)
  }

  function Released(s: State, e: Ref): State
    requires e in s.objects
  {
    var left := Drop(s, e);
    if left.objects[e].refs > 0 then left else Arm(left, e)
  }

  function Close(s: State, e: Ref): State
    requires e in s.objects
  {
    match s.objects[e].sub
    case None => s
    case Some(sub) => Set(s, e, s.objects[e].(sub := None)).(live := s.live - {sub})
  }

  function Fired(s: State, t: nat): State
    requires t in s.due && s.due[t] in s.objects
  {
    var e, fired := s.due[t], s.(due := s.due - {t});
    if s.objects[e].refs > 0 then fired
    else Close(fired, e).(entries := s.entries - {s.objects[e].key})
  }

  function Mark(s: State, e: Ref, error: bool, synced: bool): State
    requires e in s.objects
  {
    Set(s, e, s.objects[e].(error := error, synced := synced))
  }

  /** `onEvent`: a list syncs the entry and clears its error, an error is noted. */
  function Heard(s: State, sub: nat, told: Told): State
    requires sub in s.live && s.live[sub] in s.objects
  {
    var e := s.live[sub];
    match told
    case Listed => Mark(s, e, false, true)
    case Changed => s
    case Erred => Mark(s, e, true, s.objects[e].synced)
  }

  /** `onEnd`: the server ended a subscription, with an error or without. */
  function Ended(s: State, sub: nat, error: bool): State
    requires sub in s.live && s.live[sub] in s.objects
  {
    var e := s.live[sub];
    var entry := s.objects[e].(sub := None);
    Set(s, e, if error then entry.(error := true, synced := true) else entry).(live := s.live - {sub})
  }

  function Retried(s: State, e: Ref): State
    requires e in s.objects
  {
    var entry := s.objects[e];
    var cleared := Set(s, e, entry.(error := false, synced := false));
    Open(if entry.sub.Some? then cleared.(live := s.live - {entry.sub.value}) else cleared, e)
  }

  /** The invariant of every run, `but` being an entry that is not yet held nor about to be collected. */
  predicate OkBut(s: State, but: Option<Ref>)
  {
    Ok(s) && forall key | key in s.entries && Some(s.entries[key]) != but :: Collectable(s, s.entries[key])
  }

  /** Apart from what refers to `e`, the two tables are the same. */
  predicate SameButFor(a: map<nat, Ref>, b: map<nat, Ref>, e: Ref)
  {
    && (forall x | x in a && a[x] != e :: x in b && b[x] == a[x])
    && (forall x | x in b && b[x] != e :: x in a && a[x] == b[x])
  }

  /** A step that touches one cached entry keeps the invariant if it does so for that entry. */
  lemma TouchOk(s: State, n: State, e: Ref, before: Option<Ref>, after: Option<Ref>)
    requires before in {None, Some(e)} && after in {None, Some(e)}
    requires OkBut(s, before) && Cached(s, e) && e in n.objects
    requires n.objects == s.objects[e := n.objects[e]]
    requires n.objects[e].key == s.objects[e].key && n.entries == s.entries && s.next <= n.next
    requires SameButFor(s.live, n.live, e) && SameButFor(s.due, n.due, e)
    requires forall o | o != e :: n.holders[o] == s.holders[o]
    requires EntryOk(n, e) && (after == None ==> Collectable(n, e))
    requires forall sub | sub in n.live && n.live[sub] == e :: SubOk(n, sub)
    requires forall t | t in n.due && n.due[t] == e :: TimerOk(n, t)
    ensures OkBut(n, after)
  {
    forall key | key in n.entries ensures KeyOk(n, key) { assert KeyOk(s, key); }
    forall key | key in n.entries && Some(n.entries[key]) != after ensures Collectable(n, n.entries[key]) {
      assert KeyOk(s, key) && (s.entries[key] != e ==> Collectable(s, s.entries[key]));
    }
    TouchRefs(s, n, e);
  }

  lemma TouchRefs(s: State, n: State, e: Ref)
    requires Ok(s) && Cached(s, e) && e in n.objects
    requires n.objects == s.objects[e := n.objects[e]]
    requires n.objects[e].key == s.objects[e].key && n.entries == s.entries && s.next <= n.next
    requires SameButFor(s.live, n.live, e) && SameButFor(s.due, n.due, e)
    requires forall o | o != e :: n.holders[o] == s.holders[o]
    requires forall sub | sub in n.live && n.live[sub] == e :: SubOk(n, sub)
    requires forall t | t in n.due && n.due[t] == e :: TimerOk(n, t)
    ensures forall h | h in n.holders :: Cached(n, h)
    ensures forall sub | sub in n.live :: SubOk(n, sub)
    ensures forall t | t in n.due :: TimerOk(n, t)
  {
    forall h | h in n.holders ensures Cached(n, h) { assert h == e || h in s.holders; }
    forall sub | sub in n.live ensures SubOk(n, sub) { assert n.live[sub] == e || SubOk(s, sub); }
    forall t | t in n.due ensures TimerOk(n, t) { assert n.due[t] == e || TimerOk(s, t); }
  }

  lemma HoldOk(s: State, e: Ref)
    requires Cached(s, e) && OkBut(s, Some(e))
    ensures OkBut(Hold(s, e), None) && Cached(Hold(s, e), e)
  {
    assert KeyOk(s, s.objects[e].key);
    var n := Hold(s, e);
    forall sub | sub in n.live && n.live[sub] == e ensures SubOk(n, sub) { assert SubOk(s, sub); }
    forall t | t in n.due && n.due[t] == e ensures TimerOk(n, t) { assert TimerOk(s, t); }
    TouchOk(s, n, e, Some(e), None);
  }

  lemma OpenOk(s: State, e: Ref)
    requires Cached(s, e) && OkBut(s, None) && s.objects[e].sub.None?
    ensures OkBut(Open(s, e), None)
  {
    var n := Open(s, e);
    assert KeyOk(s, s.objects[e].key) && Collectable(s, e);
    forall sub | sub in n.live && n.live[sub] == e ensures SubOk(n, sub) { assert sub == s.next || SubOk(s, sub); }
    forall t | t in n.due && n.due[t] == e ensures TimerOk(n, t) { assert TimerOk(s, t); }
    TouchOk(s, n, e, None, None);
  }

  /** Closing the subscription an entry has, if any, changes nothing else. */
  lemma CloseOk(s: State, e: Ref)
    requires Cached(s, e) && OkBut(s, None)
    ensures OkBut(Close(s, e), None) && Cached(Close(s, e), e)
  {
    var n := Close(s, e);
    assert KeyOk(s, s.objects[e].key) && Collectable(s, e);
    forall sub | sub in n.live && n.live[sub] == e ensures SubOk(n, sub) { assert SubOk(s, sub); }
    forall t | t in n.due && n.due[t] == e ensures TimerOk(n, t) { assert TimerOk(s, t); }
    TouchOk(s, n, e, None, None);
  }

  /** What an entry says of errors and of being synced is its own affair. */
  lemma MarkOk(s: State, e: Ref, error: bool, synced: bool)
    requires Cached(s, e) && OkBut(s, None)
    ensures OkBut(Mark(s, e, error, synced), None) && Cached(Mark(s, e, error, synced), e)
  {
    var n := Mark(s, e, error, synced);
    assert KeyOk(s, s.objects[e].key) && Collectable(s, e);
    forall sub | sub in n.live && n.live[sub] == e ensures SubOk(n, sub) { assert SubOk(s, sub); }
    forall t | t in n.due && n.due[t] == e ensures TimerOk(n, t) { assert TimerOk(s, t); }
    TouchOk(s, n, e, None, None);
  }

  lemma DropOk(s: State, e: Ref)
    requires OkBut(s, None) && e in s.holders
    ensures Cached(s, e) && OkBut(Drop(s, e), if s.objects[e].refs > 1 then None else Some(e)) && Cached(Drop(s, e), e)
  {
    assert Cached(s, e);
    var n := Drop(s, e);
    assert KeyOk(s, s.objects[e].key) && Collectable(s, e);
    forall sub | sub in n.live && n.live[sub] == e ensures SubOk(n, sub) { assert SubOk(s, sub); }
    forall t | t in n.due && n.due[t] == e ensures TimerOk(n, t) { assert TimerOk(s, t); }
    TouchOk(s, n, e, None, if s.objects[e].refs > 1 then None else Some(e));
  }

  lemma ArmOk(s: State, e: Ref)
    requires OkBut(s, Some(e)) && Cached(s, e) && s.objects[e].refs == 0 && s.objects[e].timer.None?
    ensures OkBut(Arm(s, e), None)
  {
    var n := Arm(s, e);
    assert KeyOk(s, s.objects[e].key);
    forall sub | sub in n.live && n.live[sub] == e ensures SubOk(n, sub) { assert SubOk(s, sub); }
    forall t | t in n.due && n.due[t] == e ensures TimerOk(n, t) { assert t == s.next || TimerOk(s, t); }
    TouchOk(s, n, e, Some(e), None);
  }

  lemma ReleaseOk(s: State, e: Ref)
    requires OkBut(s, None) && e in s.holders
    ensures Cached(s, e) && OkBut(Released(s, e), None)
    ensures Released(s, e).holders == s.holders - multiset{e} && Released(s, e).live == s.live
    ensures s.holders[e] == 1 ==>
              && Released(s, e).objects[e].timer.Some?
              && Released(s, e).objects[e].timer.value in Released(s, e).due
  {
    assert Cached(s, e) && KeyOk(s, s.objects[e].key) && Collectable(s, e);
    DropOk(s, e);
    if s.objects[e].refs <= 1 {
      ArmOk(Drop(s, e), e);
    }
  }

  /** An entry nobody holds, with no subscription, leaves the cache with its timer. */
  lemma UncacheOk(s: State, t: nat)
    requires OkBut(s, None) && t in s.due && Cached(s, s.due[t])
    requires s.due[t] !in s.holders && s.objects[s.due[t]].sub.None?
    ensures OkBut(s.(due := s.due - {t}, entries := s.entries - {s.objects[s.due[t]].key}), None)
  {
    var e := s.due[t];
    var n := s.(due := s.due - {t}, entries := s.entries - {s.objects[e].key});
    assert TimerOk(s, t);
    forall k | k in n.entries ensures KeyOk(n, k) && Collectable(n, n.entries[k]) {
      assert KeyOk(s, k) && Collectable(s, s.entries[k]);
    }
    forall h | h in n.holders ensures Cached(n, h) { assert Cached(s, h); }
    forall sub | sub in n.live ensures SubOk(n, sub) { assert SubOk(s, sub); }
    forall u | u in n.due ensures TimerOk(n, u) { assert TimerOk(s, u); }
  }

  /** A timer that fires finds its entry still cached and not held, takes it out, and closes its subscription if it has
      one, and no other. */
  lemma FireOk(s: State, t: nat)
    requires OkBut(s, None) && t in s.due
    ensures Cached(s, s.due[t]) && s.due[t] !in s.holders
    ensures OkBut(Fired(s, t), None)
    ensures s.objects[s.due[t]].key !in Fired(s, t).entries && t !in Fired(s, t).due
    ensures forall sub :: sub in Fired(s, t).live <==> sub in s.live && s.live[sub] != s.due[t]
  {
    FireGone(s, t);
    var e := s.due[t];
    assert TimerOk(s, t) && KeyOk(s, s.objects[e].key) && Collectable(s, e);
    CloseOk(s, e);
    UncacheOk(Close(s, e), t);
  }

  lemma FireGone(s: State, t: nat)
    requires OkBut(s, None) && t in s.due
    ensures s.due[t] in s.objects && s.due[t] !in s.holders
    ensures s.objects[s.due[t]].key !in Fired(s, t).entries && t !in Fired(s, t).due
    ensures forall sub :: sub in Fired(s, t).live <==> sub in s.live && s.live[sub] != s.due[t]
  {
    var e := s.due[t];
    assert TimerOk(s, t) && KeyOk(s, s.objects[e].key) && Collectable(s, e);
    forall sub ensures sub in Fired(s, t).live <==> sub in s.live && s.live[sub] != e {
      if sub in s.live {
        assert SubOk(s, sub);
      }
    }
  }

  lemma LookUpOk(s: State, key: Key)
    requires OkBut(s, None)
    ensures OkBut(LookUp(s, key), Some(LookUp(s, key).entries[key])) && Cached(LookUp(s, key), LookUp(s, key).entries[key])
  {
    if key in s.entries {
      assert KeyOk(s, key);
    } else {
      MakeEntriesOk(s, key);
      MakeRefsOk(s, key);
    }
  }

  lemma MakeEntriesOk(s: State, key: Key)
    requires OkBut(s, None) && key !in s.entries
    ensures var n := LookUp(s, key);
            && (forall k | k in n.entries :: KeyOk(n, k))
            && (forall k | k in n.entries && n.entries[k] != s.next :: Collectable(n, n.entries[k]))
  {
    var n := LookUp(s, key);
    assert s.next !in s.objects && s.next !in s.holders;
    forall k | k in n.entries ensures KeyOk(n, k) && (n.entries[k] != s.next ==> Collectable(n, n.entries[k])) {
      if k != key {
        assert KeyOk(s, k) && Collectable(s, s.entries[k]);
      }
    }
  }

  lemma MakeRefsOk(s: State, key: Key)
    requires OkBut(s, None) && key !in s.entries
    ensures var n := LookUp(s, key);
            && (forall h | h in n.holders :: Cached(n, h))
            && (forall sub | sub in n.live :: SubOk(n, sub))
            && (forall t | t in n.due :: TimerOk(n, t))
  {
    var n := LookUp(s, key);
    forall h | h in n.holders ensures Cached(n, h) { assert Cached(s, h); }
    forall sub | sub in n.live ensures SubOk(n, sub) { assert SubOk(s, sub); }
    forall t | t in n.due ensures TimerOk(n, t) { assert TimerOk(s, t); }
  }

  // ---- Every run ----

  /** A frame of a watch, for what it says of the entry rather than of the objects. */
  datatype Told = Listed | Changed | Erred

  datatype Op =
    | Acquire(key: Key)
    | Release(e: Ref)
    | Retry(e: Ref)
    | Hear(sub: nat, told: Told)  // a frame
    | End(sub: nat, error: bool)  // by the server
    | Fire(timer: nat)

  /** A component releases or retries what it holds; the rest happens to what is open or set. */
  predicate Enabled(s: State, op: Op)
  {
    match op
    case Acquire(_) => true
    case Release(e) => e in s.holders
    case Retry(e) => e in s.holders
    case Hear(sub, _) => sub in s.live
    case End(sub, _) => sub in s.live
    case Fire(t) => t in s.due
  }

  lemma {:induction false} EnabledIsDefined(s: State, op: Op)
    requires OkBut(s, None) && Enabled(s, op)
    ensures op.Acquire? ==> Defined(s, op.key)
    ensures (op.Release? || op.Retry?) ==> op.e in s.objects
    ensures (op.End? || op.Hear?) ==> s.live[op.sub] in s.objects
    ensures op.Fire? ==> s.due[op.timer] in s.objects
  {
    match op
    case Acquire(key) => assert key in s.entries ==> KeyOk(s, key);
    case Release(e) => assert Cached(s, e);
    case Retry(e) => assert Cached(s, e);
    case Hear(sub, _) => assert SubOk(s, sub);
    case End(sub, _) => assert SubOk(s, sub);
    case Fire(t) => assert TimerOk(s, t);
  }

  function Step(s: State, op: Op): State
    requires OkBut(s, None)
  {
    if !Enabled(s, op) then s else
    EnabledIsDefined(s, op);
    match op
    case Acquire(key) => Acquired(s, key)
    case Release(e) => Released(s, e)
    case Retry(e) => Retried(s, e)
    case Hear(sub, told) => Heard(s, sub, told)
    case End(sub, error) => Ended(s, sub, error)
    case Fire(t) => Fired(s, t)
  }

  lemma AcquireOk(s: State, key: Key)
    requires OkBut(s, None)
    ensures Defined(s, key) && OkBut(Acquired(s, key), None)
  {
    var found := LookUp(s, key);
    var e := found.entries[key];
    LookUpOk(s, key);
    HoldOk(found, e);
    var held := Hold(found, e);
    if held.objects[e].sub.None? && !held.objects[e].error {
      OpenOk(held, e);
    }
  }

  lemma EndIsCloseAndMark(s: State, e: Ref, sub: nat, error: bool)
    requires sub in s.live && s.live[sub] == e && e in s.objects && s.objects[e].sub == Some(sub)
    ensures Ended(s, sub, error) == Mark(Close(s, e), e, s.objects[e].error || error, s.objects[e].synced || error)
  {
  }

  lemma RetryIsCloseMarkAndOpen(s: State, e: Ref)
    requires e in s.objects
    ensures Retried(s, e) == Open(Mark(Close(s, e), e, false, false), e)
  {
  }

  lemma EndOk(s: State, sub: nat, error: bool)
    requires OkBut(s, None) && sub in s.live && s.live[sub] in s.objects
    ensures OkBut(Ended(s, sub, error), None)
    ensures var e, n := s.live[sub], Ended(s, sub, error);
            && sub !in n.live && n.live.Keys == s.live.Keys - {sub} && n.objects[e].sub.None?
            && (error ==> n.objects[e].error && n.objects[e].synced)
            && (!error ==> n.objects[e].error == s.objects[e].error && n.objects[e].synced == s.objects[e].synced)
  {
    var e := s.live[sub];
    assert SubOk(s, sub);
    EndIsCloseAndMark(s, e, sub, error);
    CloseOk(s, e);
    MarkOk(Close(s, e), e, s.objects[e].error || error, s.objects[e].synced || error);
  }

  lemma HearOk(s: State, sub: nat, told: Told)
    requires OkBut(s, None) && sub in s.live && s.live[sub] in s.objects
    ensures OkBut(Heard(s, sub, told), None)
    ensures var e, n := s.live[sub], Heard(s, sub, told);
            && n.live == s.live && n.holders == s.holders
            && n.objects[e].synced == (told.Listed? || s.objects[e].synced)
            && n.objects[e].error == (told.Erred? || (told.Changed? && s.objects[e].error))
  {
    var e := s.live[sub];
    assert SubOk(s, sub);
    match told
    case Listed => MarkOk(s, e, false, true);
    case Changed =>
    case Erred => MarkOk(s, e, true, s.objects[e].synced);
  }

  lemma RetryOk(s: State, e: Ref)
    requires OkBut(s, None) && e in s.holders
    ensures Cached(s, e) && OkBut(Retried(s, e), None)
    ensures var n := Retried(s, e);
            && n.objects[e].sub.Some? && n.objects[e].sub.value !in s.live && n.objects[e].sub.value in n.live
            && !n.objects[e].error && !n.objects[e].synced
            && (s.objects[e].sub.Some? ==> s.objects[e].sub.value !in n.live)
  {
    assert Cached(s, e);
    RetryIsCloseMarkAndOpen(s, e);
    CloseOk(s, e);
    MarkOk(Close(s, e), e, false, false);
    OpenOk(Mark(Close(s, e), e, false, false), e);
  }

  lemma StepOk(s: State, op: Op)
    requires OkBut(s, None)
    ensures OkBut(Step(s, op), None)
  {
    if Enabled(s, op) {
      match op
      case Acquire(key) => AcquireOk(s, key);
      case Release(e) => ReleaseOk(s, e);
      case Retry(e) => RetryOk(s, e);
      case Hear(sub, told) => EnabledIsDefined(s, op); HearOk(s, sub, told);
      case End(sub, error) => EnabledIsDefined(s, op); EndOk(s, sub, error);
      case Fire(t) => FireOk(s, t);
    }
  }

  /** The state after these operations, from an empty cache; one that is not enabled does not happen. */
  function Play(ops: seq<Op>): (s: State)
    ensures OkBut(s, None)
  {
    if ops == [] then EMPTY else
    var before := Play(ops[..|ops| - 1]);
    StepOk(before, ops[|ops| - 1]);
    Step(before, ops[|ops| - 1])
  }

  function KeyFed(s: State, sub: nat): Key
    requires OkBut(s, None) && sub in s.live
  {
    assert SubOk(s, sub);
    s.objects[s.live[sub]].key
  }

  /** However components come and go, fail, retry and linger: one subscription per key, every holder's entry is
      the cached one, and it counts exactly its holders. */
  lemma EveryRun(ops: seq<Op>)
    ensures var s := Play(ops);
            && (forall a, b | a in s.live && b in s.live && KeyFed(s, a) == KeyFed(s, b) :: a == b)
            && (forall e | e in s.holders :: Cached(s, e) && s.objects[e].refs == s.holders[e])
  {
    var s := Play(ops);
    forall a, b | a in s.live && b in s.live && KeyFed(s, a) == KeyFed(s, b) ensures a == b {
      assert SubOk(s, a) && SubOk(s, b);
    }
    forall e | e in s.holders ensures Cached(s, e) && s.objects[e].refs == s.holders[e] {
      assert KeyOk(s, s.objects[e].key);
    }
  }

  /** A subscription that is open before a step and not after it was ended by the server, replaced by a retry
      of a component that holds it, or belonged to an entry nobody held. */
  lemma ClosedOnlyUnheld(s: State, op: Op, sub: nat)
    requires OkBut(s, None) && sub in s.live && sub !in Step(s, op).live
    ensures match op
            case End(ended, _) => ended == sub
            case Retry(e) => s.live[sub] == e && e in s.holders && s.next in Step(s, op).live && Step(s, op).live[s.next] == e
            case Fire(_) => s.live[sub] !in s.holders
            case Hear(_, _) => false
            case Acquire(_) => false
            case Release(_) => false
  {
    assert SubOk(s, sub);
    match op
    case Acquire(key) => EnabledIsDefined(s, op); AcquireKeeps(s, key, sub);
    case Release(e) => EnabledIsDefined(s, op);
    case Retry(e) => EnabledIsDefined(s, op); RetryCloses(s, e, sub);
    case Hear(_, _) => EnabledIsDefined(s, op);
    case End(ended, _) => EnabledIsDefined(s, op);
    case Fire(t) => FireOk(s, t); FireCloses(s, t, sub);
  }

  lemma AcquireKeeps(s: State, key: Key, sub: nat)
    requires OkBut(s, None) && sub in s.live && Defined(s, key)
    ensures sub in Acquired(s, key).live
  {
    assert LookUp(s, key).live == s.live;
  }

  lemma RetryCloses(s: State, e: Ref, sub: nat)
    requires OkBut(s, None) && e in s.holders && e in s.objects && sub in s.live && sub !in Retried(s, e).live
    ensures s.live[sub] == e && s.next in Retried(s, e).live && Retried(s, e).live[s.next] == e
  {
    assert SubOk(s, sub) && Cached(s, e) && KeyOk(s, s.objects[e].key);
  }

  lemma FireCloses(s: State, t: nat, sub: nat)
    requires OkBut(s, None) && t in s.due && s.due[t] in s.objects && sub in s.live && sub !in Fired(s, t).live
    ensures s.live[sub] == s.due[t]
  {
    assert SubOk(s, sub);
  }

  /** Whoever acquires a watch has one that is open, or one that failed and can be retried; if it was open
      already, nothing new is opened. */
  lemma AcquireShares(s: State, key: Key)
    requires OkBut(s, None) && Defined(s, key)
    ensures var n := Acquired(s, key);
            && key in n.entries && n.entries[key] in n.objects && n.entries[key] in n.holders
            && (n.objects[n.entries[key]].sub.Some? || n.objects[n.entries[key]].error)
            && (key in s.entries && s.objects[s.entries[key]].sub.Some? ==> n.live == s.live)
            && (key in s.entries ==> n.entries == s.entries)
            && n.holders == s.holders + multiset{n.entries[key]} && n.objects[n.entries[key]].timer.None?
  {
    assert key in s.entries ==> KeyOk(s, key);
  }

  // ---- The code ----

  class Watches {
    var objects: map<Ref, Entry>
    var entries: map<Key, Ref>
    var live: map<nat, Ref>
    var due: map<nat, Ref>
    var next: nat
    ghost var holders: multiset<Ref>

    ghost function Model(): State
      reads this
    {
      State(objects, entries, live, due, next, holders)
    }

    constructor ()
      ensures Model() == EMPTY
    {
      objects, entries, live, due, next, holders := map[], map[], map[], map[], 0, multiset{};
    }

    method Subscribe(e: Ref)
      requires e in objects
      modifies this
      ensures Model() == Open(old(Model()), e)
    {
      objects := objects[e := objects[e].(sub := Some(next))];
      live := live[next := e];
      next := next + 1;
    }

    method Find(key: Key) returns (e: Ref)
      requires Defined(Model(), key)
      modifies this
      ensures Model() == LookUp(old(Model()), key)
      ensures key in entries && e == entries[key] && e in objects
    {
      if key in entries {
        e := entries[key];
      } else {
        e := next;
        next := next + 1;
        objects := objects[e := Entry(key, 0, None, false, false, None)];
        entries := entries[key := e];
      }
    }

    method Join(e: Ref)
      requires e in objects
      modifies this
      ensures Model() == Hold(old(Model()), e)
    {
      if objects[e].timer.Some? {
        due := due - {objects[e].timer.value};
        objects := objects[e := objects[e].(timer := None)];
      }
      objects := objects[e := objects[e].(refs := objects[e].refs + 1)];
      holders := holders + multiset{e};
    }

    method Acquire(key: Key) returns (e: Ref)
      requires Defined(Model(), key)
      modifies this
      ensures Model() == Acquired(old(Model()), key)
      ensures key in entries && e == entries[key]
    {
      e := Find(key);
      Join(e);
      if objects[e].sub.None? && !objects[e].error {
        Subscribe(e);
      }
    }

    method Release(e: Ref)
      requires e in objects
      modifies this
      ensures Model() == Released(old(Model()), e)
    {
      objects := objects[e := objects[e].(refs := objects[e].refs - 1)];
      holders := holders - multiset{e};
      if objects[e].refs > 0 {
        return;
      }
      due := due[next := e];
      objects := objects[e := objects[e].(timer := Some(next))];
      next := next + 1;
    }

    method OnTimer(t: nat)
      requires t in due && due[t] in objects
      modifies this
      ensures Model() == Fired(old(Model()), t)
    {
      var e := due[t];
      due := due - {t};
      if objects[e].refs > 0 {
        return;
      }
      if objects[e].sub.Some? {
        live := live - {objects[e].sub.value};
        objects := objects[e := objects[e].(sub := None)];
      }
      entries := entries - {objects[e].key};
    }

    method OnEvent(sub: nat, told: Told)
      requires sub in live && live[sub] in objects
      modifies this
      ensures Model() == Heard(old(Model()), sub, told)
    {
      var e := live[sub];
      match told
      case Listed =>
        objects := objects[e := objects[e].(synced := true)];
        objects := objects[e := objects[e].(error := false)];
      case Changed =>
      case Erred =>
        objects := objects[e := objects[e].(error := true)];
    }

    method OnEnd(sub: nat, error: bool)
      requires sub in live && live[sub] in objects
      modifies this
      ensures Model() == Ended(old(Model()), sub, error)
    {
      var e := live[sub];
      live := live - {sub};
      objects := objects[e := objects[e].(sub := None)];
      if error {
        objects := objects[e := objects[e].(error := true, synced := true)];
      }
    }

    method Retry(e: Ref)
      requires e in objects
      modifies this
      ensures Model() == Retried(old(Model()), e)
    {
      objects := objects[e := objects[e].(error := false, synced := false)];
      if objects[e].sub.Some? {
        live := live - {objects[e].sub.value};
      }
      Subscribe(e);
    }

    method Take(key: Option<Key>) returns (current: Option<Ref>)
      requires key.Some? ==> Defined(Model(), key.value)
      modifies this
      ensures Model() == Taken(old(Model()), key)
      ensures key.Some? ==> current.Some? && key.value in entries && entries[key.value] == current.value
      ensures key.None? ==> current.None?
    {
      current := None;
      if key.Some? {
        var e := Acquire(key.value);
        current := Some(e);
      }
    }

    method LetGoOf(previous: Option<Ref>)
      requires previous.Some? ==> previous.value in objects
      modifies this
      ensures Model() == LetGo(old(Model()), previous) && entries == old(entries)
    {
      if previous.Some? {
        Release(previous.value);
      }
    }

    /** A component's parameters change, or go away: the new watch is taken before the old one is let go. */
    method Follow(previous: Option<Ref>, key: Option<Key>) returns (current: Option<Ref>)
      requires key.Some? ==> Defined(Model(), key.value)
      requires previous.Some? ==> previous.value in objects
      modifies this
      ensures Model() == Followed(old(Model()), previous, key)
      ensures key.Some? ==> current.Some? && key.value in entries && entries[key.value] == current.value
      ensures key.None? ==> current.None?
    {
      current := Take(key);
      LetGoOf(previous);
    }
  }

  function Taken(s: State, key: Option<Key>): (n: State)
    requires key.Some? ==> Defined(s, key.value)
    ensures s.objects.Keys <= n.objects.Keys
  {
    match key case Some(k) => Acquired(s, k) case None => s
  }

  function LetGo(s: State, previous: Option<Ref>): State
    requires previous.Some? ==> previous.value in s.objects
  {
    match previous case Some(e) => Released(s, e) case None => s
  }

  function Followed(s: State, previous: Option<Ref>, key: Option<Key>): State
    requires key.Some? ==> Defined(s, key.value)
    requires previous.Some? ==> previous.value in s.objects
  {
    LetGo(Taken(s, key), previous)
  }

  lemma TakenOk(s: State, key: Option<Key>)
    requires OkBut(s, None)
    ensures key.Some? ==> Defined(s, key.value)
    ensures OkBut(Taken(s, key), None)
  {
    if key.Some? {
      AcquireOk(s, key.value);
    }
  }

  lemma TakenHolds(s: State, key: Option<Key>, n: State)
    requires (key.Some? ==> Defined(s, key.value)) && n == Taken(s, key)
    ensures key.Some? ==> key.value in n.entries
    ensures n.holders == s.holders + One(if key.Some? then Some(n.entries[key.value]) else None)
  {
  }

  lemma LetGoOk(s: State, previous: Option<Ref>)
    requires OkBut(s, None) && (previous.Some? ==> previous.value in s.holders)
    ensures previous.Some? ==> previous.value in s.objects
    ensures OkBut(LetGo(s, previous), None)
  {
    if previous.Some? {
      ReleaseOk(s, previous.value);
    }
  }

  function One(e: Option<Ref>): multiset<Ref>
  {
    match e case Some(ref) => multiset{ref} case None => multiset{}
  }

  lemma LetGoHolds(s: State, previous: Option<Ref>, n: State)
    requires (previous.Some? ==> previous.value in s.objects) && n == LetGo(s, previous)
    ensures n.holders == s.holders - One(previous) && n.entries == s.entries && n.live == s.live
  {
  }

  /** Following exchanges one reference for another: what is held is what was, with the new entry and without the old. */
  lemma FollowHolds(s: State, previous: Option<Ref>, key: Option<Key>, n: State)
    requires OkBut(s, None) && (previous.Some? ==> previous.value in s.holders && previous.value in s.objects)
    requires (key.Some? ==> Defined(s, key.value)) && n == Followed(s, previous, key)
    ensures key.Some? ==> key.value in n.entries
    ensures n.holders == s.holders + One(if key.Some? then Some(n.entries[key.value]) else None) - One(previous)
  {
    var taken := Taken(s, key);
    TakenHolds(s, key, taken);
    LetGoHolds(taken, previous, n);
  }

  lemma FollowOk(s: State, previous: Option<Ref>, key: Option<Key>)
    requires OkBut(s, None) && (previous.Some? ==> previous.value in s.holders)
    ensures key.Some? ==> Defined(s, key.value)
    ensures previous.Some? ==> previous.value in s.objects
    ensures OkBut(Followed(s, previous, key), None)
  {
    if previous.Some? {
      assert Cached(s, previous.value);
    }
    TakenOk(s, key);
    var taken := Taken(s, key);
    TakenHolds(s, key, taken);
    LetGoOk(taken, previous);
  }

  /** Changing from a watch to the same one, when it is open, neither opens nor closes anything. */
  lemma SameWatchStaysOpen(s: State, e: Ref)
    requires OkBut(s, None) && e in s.holders && e in s.objects && s.objects[e].sub.Some? && Defined(s, s.objects[e].key)
    ensures Followed(s, Some(e), Some(s.objects[e].key)).live == s.live
    ensures Followed(s, Some(e), Some(s.objects[e].key)).due == s.due
  {
    var key := s.objects[e].key;
    assert Cached(s, e) && KeyOk(s, key) && Collectable(s, e);
    AcquireShares(s, key);
  }
}
