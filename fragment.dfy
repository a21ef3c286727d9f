/**
 * The headless fragment that owns the registry of pending permission requests
 * (permission name to the channel its outcome will be published on), forwards
 * prompts to the platform, and dispatches the platform's answer to the waiting
 * channels.
 *
 * A channel (a PublishSubject in the library) is represented by an identity
 * drawn from a counter; what it published is recorded in `delivered`: an entry
 * `c := p` means channel `c` emitted `p` and then completed. The order in which
 * channels published is kept in `log`, since a PublishSubject gives nothing to
 * a subscriber that arrives after it completed.
 */
module Fragment {
  import opened Wrappers
  import opened Permissions
  import opened Sequences

  /** The identity of one single-use result channel. */
  type ChannelId = nat

  /** The request code the fragment passes to the platform and expects back. */
  const PERMISSIONS_REQUEST_CODE: int := 42

  /** The platform's grant code for a granted permission. */
  const PERMISSION_GRANTED: int := 0

  /**
   * The invariant of a fragment: every registered channel is older than the
   * counter and has not published yet, every published channel is older than
   * the counter, and no two names share a channel.
   */
  ghost predicate RegistryInvariant(subjects: map<string, ChannelId>, delivered: map<ChannelId, Permission>, nextChannel: ChannelId)
  {
    && (forall n :: n in subjects ==> subjects[n] < nextChannel && subjects[n] !in delivered)
    && (forall c :: c in delivered ==> c < nextChannel)
    && (forall n, m :: n in subjects && m in subjects && n != m ==> subjects[n] != subjects[m])
  }

  /** The publication log holds exactly the channels that have published. */
  ghost predicate LogMatches(delivered: map<ChannelId, Permission>, log: seq<ChannelId>)
  {
    forall c :: c in log <==> c in delivered
  }

  /** The registry together with what the channels have published, and in which order. */
  datatype Channels = Channels(subjects: map<string, ChannelId>, delivered: map<ChannelId, Permission>, log: seq<ChannelId>)

  /** True iff the three parallel arrays of a result batch have one entry per name. */
  predicate Parallel(grantResults: seq<int>, flags: seq<bool>, permissions: seq<string>)
  {
    |grantResults| == |permissions| && |flags| == |permissions|
  }

  /** The outcome published for index `i` of a result batch. */
  function Outcome(grantResults: seq<int>, flags: seq<bool>, permissions: seq<string>, i: nat): (p: Permission)
    requires Parallel(grantResults, flags, permissions) && i < |permissions|
    ensures p.name == permissions[i]
    ensures p.granted <==> grantResults[i] == PERMISSION_GRANTED
    ensures p.shouldShowRationale == flags[i]
  {
    Permission(permissions[i], grantResults[i] == PERMISSION_GRANTED, flags[i])
  }

  /**
   * Dispatch of a result batch from index `i` on: each name's entry is removed
   * and its channel publishes the outcome; the first name without an entry
   * ends the whole batch.
   */
  function DispatchFrom(st: Channels, grantResults: seq<int>, flags: seq<bool>, permissions: seq<string>, i: nat): (r: Channels)
    requires Parallel(grantResults, flags, permissions) && i <= |permissions|
    ensures r.subjects.Keys <= st.subjects.Keys
    ensures st.delivered.Keys <= r.delivered.Keys
    ensures |st.log| <= |r.log| && r.log[..|st.log|] == st.log
    decreases |permissions| - i
  {
    if i == |permissions| || permissions[i] !in st.subjects then st
    else
      var subject := st.subjects[permissions[i]];
      var next := Channels(st.subjects - {permissions[i]},
                           st.delivered[subject := Outcome(grantResults, flags, permissions, i)],
                           st.log + [subject]);
      var r := DispatchFrom(next, grantResults, flags, permissions, i + 1);
      assert r.log[..|st.log|] == r.log[..|next.log|][..|st.log|];
      r
  }

  /** The index at which dispatch from `i` stops, given the registered names `keys`. */
  function StopIndex(keys: set<string>, permissions: seq<string>, i: nat): (k: nat)
    requires i <= |permissions|
    ensures i <= k <= |permissions|
    decreases |permissions| - i
  {
    if i == |permissions| || permissions[i] !in keys then i
    else StopIndex(keys - {permissions[i]}, permissions, i + 1)
  }

  /**
   * Dispatch resolves exactly the names before the stop index, each registered
   * and not repeated; at the stop index the name is unregistered or a repeat.
   */
  lemma {:induction false} StopIndexCharacterised(keys: set<string>, permissions: seq<string>, i: nat)
    requires i <= |permissions|
    ensures var k := StopIndex(keys, permissions, i);
      && (forall j :: i <= j < k ==> permissions[j] in keys && permissions[j] !in permissions[i..j])
      && (k < |permissions| ==> permissions[k] !in keys || permissions[k] in permissions[i..k])
    decreases |permissions| - i
  {
    if i < |permissions| && permissions[i] in keys {
      var k := StopIndex(keys, permissions, i);
      StopIndexCharacterised(keys - {permissions[i]}, permissions, i + 1);
      forall j | i < j <= k && j <= |permissions|
        ensures permissions[i..j] == [permissions[i]] + permissions[i + 1..j]
      {
      }
    }
  }

  /** Dispatch removes exactly the resolved names from the registry and leaves every other entry as it was. */
  lemma {:induction false} DispatchSubjects(st: Channels, grantResults: seq<int>, flags: seq<bool>, permissions: seq<string>, i: nat)
    requires Parallel(grantResults, flags, permissions) && i <= |permissions|
    ensures var r, k := DispatchFrom(st, grantResults, flags, permissions, i), StopIndex(st.subjects.Keys, permissions, i);
      && (forall n :: n in r.subjects <==> n in st.subjects && n !in permissions[i..k])
      && (forall n :: n in r.subjects ==> r.subjects[n] == st.subjects[n])
    decreases |permissions| - i
  {
    if i < |permissions| && permissions[i] in st.subjects {
      var k := StopIndex(st.subjects.Keys, permissions, i);
      var next := Channels(st.subjects - {permissions[i]},
                           st.delivered[st.subjects[permissions[i]] := Outcome(grantResults, flags, permissions, i)],
                           st.log + [st.subjects[permissions[i]]]);
      assert next.subjects.Keys == st.subjects.Keys - {permissions[i]};
      DispatchSubjects(next, grantResults, flags, permissions, i + 1);
      assert permissions[i..k] == [permissions[i]] + permissions[i + 1..k];
    }
  }

  /** Dispatch keeps every earlier publication. */
  lemma {:induction false} DispatchKeepsPublished(st: Channels, grantResults: seq<int>, flags: seq<bool>, permissions: seq<string>, i: nat)
    requires Parallel(grantResults, flags, permissions) && i <= |permissions|
    requires forall n :: n in st.subjects ==> st.subjects[n] !in st.delivered
    requires forall n, m :: n in st.subjects && m in st.subjects && n != m ==> st.subjects[n] != st.subjects[m]
    ensures var r := DispatchFrom(st, grantResults, flags, permissions, i);
      forall c :: c in st.delivered ==> c in r.delivered && r.delivered[c] == st.delivered[c]
    decreases |permissions| - i
  {
    if i < |permissions| && permissions[i] in st.subjects {
      var name := permissions[i];
      var next := Channels(st.subjects - {name},
                           st.delivered[st.subjects[name] := Outcome(grantResults, flags, permissions, i)],
                           st.log + [st.subjects[name]]);
      DispatchKeepsPublished(next, grantResults, flags, permissions, i + 1);
    }
  }

  /** Dispatch publishes on the channel of every resolved name the outcome at that name's index. */
  lemma {:induction false} DispatchPublishesResolved(st: Channels, grantResults: seq<int>, flags: seq<bool>, permissions: seq<string>, i: nat)
    requires Parallel(grantResults, flags, permissions) && i <= |permissions|
    requires forall n :: n in st.subjects ==> st.subjects[n] !in st.delivered
    requires forall n, m :: n in st.subjects && m in st.subjects && n != m ==> st.subjects[n] != st.subjects[m]
    ensures var r, k := DispatchFrom(st, grantResults, flags, permissions, i), StopIndex(st.subjects.Keys, permissions, i);
      forall j :: i <= j < k ==>
        permissions[j] in st.subjects && st.subjects[permissions[j]] in r.delivered &&
        r.delivered[st.subjects[permissions[j]]] == Outcome(grantResults, flags, permissions, j)
    decreases |permissions| - i
  {
    if i < |permissions| && permissions[i] in st.subjects {
      var name := permissions[i];
      var next := Channels(st.subjects - {name},
                           st.delivered[st.subjects[name] := Outcome(grantResults, flags, permissions, i)],
                           st.log + [st.subjects[name]]);
      assert next.subjects.Keys == st.subjects.Keys - {name};
      DispatchPublishesResolved(next, grantResults, flags, permissions, i + 1);
      DispatchKeepsPublished(next, grantResults, flags, permissions, i + 1);
    }
  }

  /** Dispatch publishes on no channel other than those of the resolved names. */
  lemma {:induction false} DispatchPublishesOnlyResolved(st: Channels, grantResults: seq<int>, flags: seq<bool>, permissions: seq<string>, i: nat)
    requires Parallel(grantResults, flags, permissions) && i <= |permissions|
    ensures var r, k := DispatchFrom(st, grantResults, flags, permissions, i), StopIndex(st.subjects.Keys, permissions, i);
      forall c :: c in r.delivered ==>
        c in st.delivered || exists j :: i <= j < k && permissions[j] in st.subjects && c == st.subjects[permissions[j]]
    decreases |permissions| - i
  {
    if i < |permissions| && permissions[i] in st.subjects {
      var k := StopIndex(st.subjects.Keys, permissions, i);
      var name := permissions[i];
      var next := Channels(st.subjects - {name},
                           st.delivered[st.subjects[name] := Outcome(grantResults, flags, permissions, i)],
                           st.log + [st.subjects[name]]);
      assert next.subjects.Keys == st.subjects.Keys - {name};
      DispatchPublishesOnlyResolved(next, grantResults, flags, permissions, i + 1);
      assert StopIndex(next.subjects.Keys, permissions, i + 1) == k;
      var r := DispatchFrom(st, grantResults, flags, permissions, i);
      assert r == DispatchFrom(next, grantResults, flags, permissions, i + 1);
      forall c | c in r.delivered
        ensures c in st.delivered || exists j :: i <= j < k && permissions[j] in st.subjects && c == st.subjects[permissions[j]]
      {
        if c !in st.delivered && c != st.subjects[name] {
          var j :| i + 1 <= j < k && permissions[j] in next.subjects && c == next.subjects[permissions[j]];
          assert permissions[j] in st.subjects && c == st.subjects[permissions[j]];
        }
      }
    }
  }

  /** Dispatch keeps the fragment invariant. */
  lemma {:induction false} DispatchKeepsInvariant(st: Channels, nextChannel: ChannelId, grantResults: seq<int>, flags: seq<bool>, permissions: seq<string>, i: nat)
    requires Parallel(grantResults, flags, permissions) && i <= |permissions|
    requires RegistryInvariant(st.subjects, st.delivered, nextChannel)
    ensures var r := DispatchFrom(st, grantResults, flags, permissions, i);
      RegistryInvariant(r.subjects, r.delivered, nextChannel)
    decreases |permissions| - i
  {
    if i < |permissions| && permissions[i] in st.subjects {
      var name := permissions[i];
      var next := Channels(st.subjects - {name},
                           st.delivered[st.subjects[name] := Outcome(grantResults, flags, permissions, i)],
                           st.log + [st.subjects[name]]);
      assert RegistryInvariant(next.subjects, next.delivered, nextChannel);
      DispatchKeepsInvariant(next, nextChannel, grantResults, flags, permissions, i + 1);
    }
  }

  /**
   * Dispatch appends to the publication log the channels of the resolved
   * names, in batch order, and nothing else.
   */
  lemma {:induction false} DispatchLog(st: Channels, grantResults: seq<int>, flags: seq<bool>, permissions: seq<string>, i: nat)
    requires Parallel(grantResults, flags, permissions) && i <= |permissions|
    ensures var r, k := DispatchFrom(st, grantResults, flags, permissions, i), StopIndex(st.subjects.Keys, permissions, i);
      && |r.log| == |st.log| + (k - i)
      && forall j :: i <= j < k ==> permissions[j] in st.subjects && r.log[|st.log| + (j - i)] == st.subjects[permissions[j]]
    decreases |permissions| - i
  {
    if i < |permissions| && permissions[i] in st.subjects {
      var k := StopIndex(st.subjects.Keys, permissions, i);
      var name := permissions[i];
      var next := Channels(st.subjects - {name},
                           st.delivered[st.subjects[name] := Outcome(grantResults, flags, permissions, i)],
                           st.log + [st.subjects[name]]);
      assert next.subjects.Keys == st.subjects.Keys - {name};
      assert StopIndex(next.subjects.Keys, permissions, i + 1) == k;
      DispatchLog(next, grantResults, flags, permissions, i + 1);
      var r := DispatchFrom(next, grantResults, flags, permissions, i + 1);
      assert r.log[|st.log|] == r.log[..|next.log|][|st.log|];
    }
  }

  /** Dispatch keeps the publication log in step with what was published. */
  lemma {:induction false} DispatchKeepsLog(st: Channels, grantResults: seq<int>, flags: seq<bool>, permissions: seq<string>, i: nat)
    requires Parallel(grantResults, flags, permissions) && i <= |permissions|
    requires LogMatches(st.delivered, st.log)
    ensures var r := DispatchFrom(st, grantResults, flags, permissions, i);
      LogMatches(r.delivered, r.log)
    decreases |permissions| - i
  {
    if i < |permissions| && permissions[i] in st.subjects {
      var name := permissions[i];
      var next := Channels(st.subjects - {name},
                           st.delivered[st.subjects[name] := Outcome(grantResults, flags, permissions, i)],
                           st.log + [st.subjects[name]]);
      DispatchKeepsLog(next, grantResults, flags, permissions, i + 1);
    }
  }

  /**
   * What one result batch does to a fragment in its invariant: the names
   * before the stop index are resolved (each removed from the registry, its
   * previously silent channel now carrying the outcome at its index); the
   * name at the stop index is unregistered or a repeat; every other entry and
   * every earlier publication is untouched; the invariant still holds.
   */
  lemma Dispatch(subjects: map<string, ChannelId>, delivered: map<ChannelId, Permission>, log: seq<ChannelId>,
                 nextChannel: ChannelId, grantResults: seq<int>, flags: seq<bool>, permissions: seq<string>)
    requires Parallel(grantResults, flags, permissions)
    requires RegistryInvariant(subjects, delivered, nextChannel)
    ensures var r, k := DispatchFrom(Channels(subjects, delivered, log), grantResults, flags, permissions, 0), StopIndex(subjects.Keys, permissions, 0);
      && (forall j :: 0 <= j < k ==>
            && permissions[j] in subjects && permissions[j] !in r.subjects
            && subjects[permissions[j]] !in delivered && subjects[permissions[j]] in r.delivered
            && r.delivered[subjects[permissions[j]]] == Outcome(grantResults, flags, permissions, j))
      && (k < |permissions| ==> permissions[k] !in subjects || permissions[k] in permissions[..k])
      && (forall n :: n in subjects && n !in permissions[..k] ==> n in r.subjects && r.subjects[n] == subjects[n])
      && r.subjects.Keys <= subjects.Keys
      && (forall c :: c in delivered ==> c in r.delivered && r.delivered[c] == delivered[c])
      && RegistryInvariant(r.subjects, r.delivered, nextChannel)
  {
    var st := Channels(subjects, delivered, log);
    var k := StopIndex(subjects.Keys, permissions, 0);
    StopIndexCharacterised(subjects.Keys, permissions, 0);
    DispatchSubjects(st, grantResults, flags, permissions, 0);
    DispatchKeepsPublished(st, grantResults, flags, permissions, 0);
    DispatchPublishesResolved(st, grantResults, flags, permissions, 0);
    DispatchKeepsInvariant(st, nextChannel, grantResults, flags, permissions, 0);
    assert forall j :: 0 <= j < k ==> permissions[j] in permissions[0..k];
    assert permissions[0..k] == permissions[..k];
  }

  /**
   * The publication log after one result batch: the earlier log, followed by
   * the channels of the names before the stop index, in batch order; it still
   * holds exactly the channels that have published.
   */
  lemma DispatchLogged(subjects: map<string, ChannelId>, delivered: map<ChannelId, Permission>, log: seq<ChannelId>,
                       grantResults: seq<int>, flags: seq<bool>, permissions: seq<string>)
    requires Parallel(grantResults, flags, permissions)
    requires LogMatches(delivered, log)
    ensures var r, k := DispatchFrom(Channels(subjects, delivered, log), grantResults, flags, permissions, 0), StopIndex(subjects.Keys, permissions, 0);
      && |r.log| == |log| + k && r.log[..|log|] == log
      && (forall j :: 0 <= j < k ==> permissions[j] in subjects && r.log[|log| + j] == subjects[permissions[j]])
      && LogMatches(r.delivered, r.log)
  {
    var st := Channels(subjects, delivered, log);
    DispatchLog(st, grantResults, flags, permissions, 0);
    DispatchKeepsLog(st, grantResults, flags, permissions, 0);
  }

  /**
   * A batch whose names are registered on consecutive channels
   * `base`, `base + 1`, ... and which is resolved in full: every name leaves
   * the registry and channel `base + j` publishes the outcome at index j.
   */
  lemma DispatchFreshBatch(subjects: map<string, ChannelId>, delivered: map<ChannelId, Permission>, log: seq<ChannelId>,
                           nextChannel: ChannelId, base: ChannelId, grantResults: seq<int>, flags: seq<bool>, permissions: seq<string>)
    requires Parallel(grantResults, flags, permissions)
    requires RegistryInvariant(subjects, delivered, nextChannel)
    requires forall j :: 0 <= j < |permissions| ==> permissions[j] in subjects && subjects[permissions[j]] == base + j
    requires StopIndex(subjects.Keys, permissions, 0) == |permissions|
    ensures var r := DispatchFrom(Channels(subjects, delivered, log), grantResults, flags, permissions, 0);
      forall j :: 0 <= j < |permissions| ==>
        && permissions[j] !in r.subjects
        && base + j in r.delivered && r.delivered[base + j] == Outcome(grantResults, flags, permissions, j)
  {
    var r := DispatchFrom(Channels(subjects, delivered, log), grantResults, flags, permissions, 0);
    Dispatch(subjects, delivered, log, nextChannel, grantResults, flags, permissions);
    forall j | 0 <= j < |permissions|
      ensures permissions[j] !in r.subjects
      ensures base + j in r.delivered && r.delivered[base + j] == Outcome(grantResults, flags, permissions, j)
    {
      assert j < StopIndex(subjects.Keys, permissions, 0);
      assert r.delivered[subjects[permissions[j]]] == Outcome(grantResults, flags, permissions, j);
      assert subjects[permissions[j]] == base + j;
    }
  }

  /**
   * A batch whose names are registered on consecutive channels
   * `base`, `base + 1`, ..., all newer than anything already published, and
   * which is resolved in full: channel `base + j` becomes the j-th entry after
   * the earlier log.
   */
  lemma DispatchLogsFreshChannels(subjects: map<string, ChannelId>, delivered: map<ChannelId, Permission>, log: seq<ChannelId>,
                                  base: ChannelId, grantResults: seq<int>, flags: seq<bool>, permissions: seq<string>)
    requires Parallel(grantResults, flags, permissions)
    requires LogMatches(delivered, log) && forall c :: c in delivered ==> c < base
    requires forall j :: 0 <= j < |permissions| ==> permissions[j] in subjects && subjects[permissions[j]] == base + j
    requires StopIndex(subjects.Keys, permissions, 0) == |permissions|
    ensures var r := DispatchFrom(Channels(subjects, delivered, log), grantResults, flags, permissions, 0);
      && LogMatches(r.delivered, r.log)
      && forall c :: base <= c < base + |permissions| ==> c in r.log && IndexOf(r.log, c) == |log| + (c - base)
  {
    var r := DispatchFrom(Channels(subjects, delivered, log), grantResults, flags, permissions, 0);
    DispatchLogged(subjects, delivered, log, grantResults, flags, permissions);
    forall c | base <= c < base + |permissions|
      ensures c in r.log && IndexOf(r.log, c) == |log| + (c - base)
    {
      var j := c - base;
      assert r.log[|log| + j] == subjects[permissions[j]];
      forall q | 0 <= q < |log| + j
        ensures r.log[q] != c
      {
        if q < |log| {
          assert r.log[q] == log[q];
          assert log[q] in delivered;
        } else {
          var q' := q - |log|;
          assert r.log[|log| + q'] == subjects[permissions[q']];
        }
      }
      IndexOfAt(r.log, |log| + j, c);
    }
  }

  /** A name that occurs twice in a batch is never resolved at its second occurrence: dispatch stops there at the latest. */
  lemma DispatchStopsAtRepeat(keys: set<string>, permissions: seq<string>, first: nat, second: nat)
    requires first < second < |permissions| && permissions[first] == permissions[second]
    ensures StopIndex(keys, permissions, 0) <= second
  {
    StopIndexCharacterised(keys, permissions, 0);
    assert permissions[0..second][first] == permissions[second];
  }

  /** The rationale flags for a result batch: entry i is the platform's answer for name i. */
  method RationaleFlags(permissions: seq<string>, shouldShowRationale: string -> bool) returns (flags: seq<bool>)
    ensures |flags| == |permissions|
    ensures forall i :: 0 <= i < |permissions| ==> flags[i] == shouldShowRationale(permissions[i])
  {
    var a := new bool[|permissions|];
    for index := 0 to |permissions|
      invariant forall j :: 0 <= j < index ==> a[j] == shouldShowRationale(permissions[j])
    {
      a[index] := shouldShowRationale(permissions[index]);
    }
    flags := a[..];
  }

  class PermissionsFragment {
    /** The pending requests: each name awaiting an answer and the channel its outcome goes to. */
    var subjects: map<string, ChannelId>
    /** What each completed channel published. */
    var delivered: map<ChannelId, Permission>
    /** The completed channels, in the order they published. */
    var log: seq<ChannelId>
    /** The identity the next new channel receives. */
    var nextChannel: ChannelId
    /** Every batch of names sent to the platform with the request code, oldest first. */
    var prompts: seq<seq<string>>

    ghost predicate Valid()
      reads this
    {
      RegistryInvariant(subjects, delivered, nextChannel) && LogMatches(delivered, log)
    }

    constructor()
      ensures Valid()
      ensures subjects == map[] && delivered == map[] && log == [] && prompts == []
    {
      subjects := map[];
      delivered := map[];
      log := [];
      nextChannel := 0;
      prompts := [];
    }

    function GetSubjectByPermission(permission: string): (r: Option<ChannelId>)
      reads this
      ensures r.Some? <==> permission in subjects
      ensures r.Some? ==> r.value == subjects[permission]
    {
      if permission in subjects then Some(subjects[permission]) else None
    }

    function ContainsByPermission(permission: string): (r: bool)
      reads this
      ensures r <==> GetSubjectByPermission(permission).Some?
    {
      permission in subjects
    }

    method SetSubjectForPermission(permission: string, subject: ChannelId)
      modifies this`subjects
      ensures subjects == old(subjects)[permission := subject]
      ensures GetSubjectByPermission(permission) == Some(subject) && ContainsByPermission(permission)
      ensures forall n :: n != permission ==> GetSubjectByPermission(n) == old(GetSubjectByPermission(n))
    {
      subjects := subjects[permission := subject];
    }

    /** A new channel (PublishSubject.create()): an identity no channel has had before. */
    method CreateSubject() returns (subject: ChannelId)
      modifies this`nextChannel
      ensures subject == old(nextChannel) && nextChannel == subject + 1
    {
      subject := nextChannel;
      nextChannel := nextChannel + 1;
    }

    /** Sends one batch of names to the platform's permission dialog, with the request code. */
    method RequestPermissions(permissions: seq<string>)
      modifies this`prompts
      ensures prompts == old(prompts) + [permissions]
    {
      prompts := prompts + [permissions];
    }

    /** Dispatches one result batch to the waiting channels. */
    method OnRequestPermissionsResult(grantResults: seq<int>, flags: seq<bool>, permissions: seq<string>)
      requires Valid() && Parallel(grantResults, flags, permissions)
      modifies this`subjects, this`delivered, this`log
      ensures Valid()
      ensures Channels(subjects, delivered, log) ==
              DispatchFrom(Channels(old(subjects), old(delivered), old(log)), grantResults, flags, permissions, 0)
    {
      DispatchKeepsInvariant(Channels(subjects, delivered, log), nextChannel, grantResults, flags, permissions, 0);
      DispatchKeepsLog(Channels(subjects, delivered, log), grantResults, flags, permissions, 0);
      var index := 0;
      while index < |permissions|
        invariant 0 <= index <= |permissions|
        invariant DispatchFrom(Channels(subjects, delivered, log), grantResults, flags, permissions, index) ==
                  DispatchFrom(Channels(old(subjects), old(delivered), old(log)), grantResults, flags, permissions, 0)
      {
        var permission := permissions[index];
        var subject := GetSubjectByPermission(permission);
        if subject.None? {
          return;
        }
        subjects := subjects - {permission};
        var granted := grantResults[index] == PERMISSION_GRANTED;
        delivered := delivered[subject.value := Permission(permission, granted, flags[index])];
        log := log + [subject.value];
        index := index + 1;
      }
    }

    /**
     * The platform callback: ignored unless it carries the fragment's request
     * code; otherwise the rationale flags are read from the platform and the
     * batch is dispatched.
     */
    method OnPlatformRequestPermissionsResult(requestCode: int, permissions: seq<string>, grantResults: seq<int>,
                                              shouldShowRationale: string -> bool)
      requires Valid() && |grantResults| == |permissions|
      modifies this`subjects, this`delivered, this`log
      ensures Valid()
      ensures requestCode != PERMISSIONS_REQUEST_CODE ==>
                subjects == old(subjects) && delivered == old(delivered) && log == old(log)
      ensures requestCode == PERMISSIONS_REQUEST_CODE ==>
                Channels(subjects, delivered, log) ==
                DispatchFrom(Channels(old(subjects), old(delivered), old(log)), grantResults,
                             seq(|permissions|, i requires 0 <= i < |permissions| => shouldShowRationale(permissions[i])),
                             permissions, 0)
    {
      if requestCode != PERMISSIONS_REQUEST_CODE {
        return;
      }
      var flags := RationaleFlags(permissions, shouldShowRationale);
      assert flags == seq(|permissions|, i requires 0 <= i < |permissions| => shouldShowRationale(permissions[i]));
      OnRequestPermissionsResult(grantResults, flags, permissions);
    }
  }
}
