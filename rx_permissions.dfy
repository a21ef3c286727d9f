/**
 * The request coordinator: decides for each requested name whether its
 * outcome is known at once (granted, or revoked by policy) or must wait on a
 * channel, reuses the channel of a name already pending, registers a new one
 * otherwise, and sends the newly registered names to the platform in one
 * batch. Also the trigger gate, the per-buffer reductions of the boolean and
 * combined output shapes, and the rationale query.
 */
module RxPermissionsCore {
  import opened Wrappers
  import opened Sequences
  import opened Permissions
  import opened Fragment

  /**
   * The platform, as seen by the library: whether the API level is at least
   * Marshmallow, and the three per-name queries.
   */
  datatype Host = Host(
    isMarshmallow: bool,
    checkSelfPermission: string -> bool,
    isPermissionRevokedByPolicy: string -> bool,
    shouldShowRationale: string -> bool)

  /** Already granted; always before Marshmallow. */
  predicate IsGranted(host: Host, permission: string)
    ensures !host.isMarshmallow ==> IsGranted(host, permission)
    ensures host.isMarshmallow ==> (IsGranted(host, permission) <==> host.checkSelfPermission(permission))
  {
    !host.isMarshmallow || host.checkSelfPermission(permission)
  }

  /** Revoked by a policy; never before Marshmallow. */
  predicate IsRevoked(host: Host, permission: string)
    ensures !host.isMarshmallow ==> !IsRevoked(host, permission)
    ensures host.isMarshmallow ==> (IsRevoked(host, permission) <==> host.isPermissionRevokedByPolicy(permission))
  {
    host.isMarshmallow && host.isPermissionRevokedByPolicy(permission)
  }

  /** Neither granted nor revoked: the outcome has to come from the platform dialog. */
  predicate NeedsPrompt(host: Host, permission: string)
  {
    !IsGranted(host, permission) && !IsRevoked(host, permission)
  }

  /** Before Marshmallow every name counts as granted and none as revoked. */
  lemma BeforeMarshmallow(host: Host, permission: string)
    requires !host.isMarshmallow
    ensures IsGranted(host, permission) && !IsRevoked(host, permission) && !NeedsPrompt(host, permission)
  {
  }

  /** One element of the output of a request: an outcome known now, or the channel it will arrive on. */
  datatype Slot = Immediate(permission: Permission) | Await(name: string, subject: ChannelId)

  function SlotName(slot: Slot): string
  {
    match slot
    case Immediate(p) => p.name
    case Await(name, _) => name
  }

  /**
   * The effect of a request so far: the slots, the names newly registered (to
   * be prompted), and the registry and channel counter afterwards.
   */
  datatype Plan = Plan(list: seq<Slot>, unrequested: seq<string>, subjects: map<string, ChannelId>, nextChannel: ChannelId)

  /**
   * The handling of one requested name: one slot is appended for it; the
   * registry only grows, and the counter moves exactly when a name is added
   * to the prompt list.
   */
  function Step(host: Host, plan: Plan, permission: string): (r: Plan)
    ensures |r.list| == |plan.list| + 1
    ensures SlotName(r.list[|plan.list|]) == permission
    ensures plan.subjects.Keys <= r.subjects.Keys
    ensures r.nextChannel - plan.nextChannel == |r.unrequested| - |plan.unrequested|
  {
    if IsGranted(host, permission) then
      plan.(list := plan.list + [Immediate(Permission(permission, true, false))])
    else if IsRevoked(host, permission) then
      plan.(list := plan.list + [Immediate(Permission(permission, false, false))])
    else if permission in plan.subjects then
      plan.(list := plan.list + [Await(permission, plan.subjects[permission])])
    else
      Plan(plan.list + [Await(permission, plan.nextChannel)],
           plan.unrequested + [permission],
           plan.subjects[permission := plan.nextChannel],
           plan.nextChannel + 1)
  }

  /** Handling one more name leaves the slots of the earlier names as they were. */
  lemma StepKeepsSlots(host: Host, plan: Plan, permission: string)
    ensures forall k :: 0 <= k < |plan.list| ==> Step(host, plan, permission).list[k] == plan.list[k]
  {
  }

  /** A name that needs a prompt and has no entry waits on the next fresh channel. */
  lemma StepRegistersNew(host: Host, plan: Plan, permission: string)
    requires NeedsPrompt(host, permission) && permission !in plan.subjects
    ensures Step(host, plan, permission).list[|plan.list|] == Await(permission, plan.nextChannel)
  {
  }

  /** A name joins the prompt list iff it needs a prompt and has neither an earlier entry nor a place in the list. */
  lemma StepPrompt(host: Host, subjects: map<string, ChannelId>, plan: Plan, permission: string)
    requires permission in plan.subjects <==> permission in subjects || permission in plan.unrequested
    ensures Step(host, plan, permission).unrequested ==
            plan.unrequested + (if NeedsPrompt(host, permission) && permission !in subjects && permission !in plan.unrequested
                                then [permission] else [])
  {
  }

  /**
   * The handling of all requested names, in order, starting from a registry
   * and a channel counter: one slot per name; the registry only grows; one
   * new channel per prompted name.
   */
  function PlanOf(host: Host, subjects: map<string, ChannelId>, nextChannel: ChannelId, permissions: seq<string>): (r: Plan)
    ensures |r.list| == |permissions|
    ensures subjects.Keys <= r.subjects.Keys
    ensures r.nextChannel == nextChannel + |r.unrequested|
    decreases |permissions|
  {
    if permissions == [] then Plan([], [], subjects, nextChannel)
    else
      var n := |permissions| - 1;
      Step(host, PlanOf(host, subjects, nextChannel, permissions[..n]), permissions[n])
  }

  /** One slot per requested name, in input order; one new channel per newly registered name. */
  lemma {:induction false} PlanShape(host: Host, subjects: map<string, ChannelId>, nextChannel: ChannelId, permissions: seq<string>)
    ensures var o := PlanOf(host, subjects, nextChannel, permissions);
      && |o.list| == |permissions|
      && (forall i :: 0 <= i < |permissions| ==> SlotName(o.list[i]) == permissions[i])
      && o.nextChannel == nextChannel + |o.unrequested|
    decreases |permissions|
  {
    if permissions != [] {
      PlanShape(host, subjects, nextChannel, permissions[..|permissions| - 1]);
    }
  }

  /**
   * The registry after a request: earlier entries keep their channel, exactly
   * the newly registered names are added, the j-th of them on channel
   * `nextChannel + j`.
   */
  lemma {:induction false} PlanRegistry(host: Host, subjects: map<string, ChannelId>, nextChannel: ChannelId, permissions: seq<string>)
    ensures var o := PlanOf(host, subjects, nextChannel, permissions);
      && (forall n :: n in subjects ==> n in o.subjects && o.subjects[n] == subjects[n])
      && (forall n :: n in o.subjects <==> n in subjects || n in o.unrequested)
      && (forall j :: 0 <= j < |o.unrequested| ==>
            o.unrequested[j] !in subjects && o.subjects[o.unrequested[j]] == nextChannel + j)
      && o.nextChannel == nextChannel + |o.unrequested|
    decreases |permissions|
  {
    if permissions != [] {
      var n := |permissions| - 1;
      var prev := PlanOf(host, subjects, nextChannel, permissions[..n]);
      PlanRegistry(host, subjects, nextChannel, permissions[..n]);
      PlanShape(host, subjects, nextChannel, permissions[..n]);
    }
  }

  /**
   * Each slot: granted names get Permission(name, true, false), revoked ones
   * Permission(name, false, false), every other name waits on the channel the
   * registry holds for it after the call.
   */
  lemma {:induction false} PlanSlots(host: Host, subjects: map<string, ChannelId>, nextChannel: ChannelId, permissions: seq<string>)
    ensures var o := PlanOf(host, subjects, nextChannel, permissions);
      && |o.list| == |permissions|
      && forall i :: 0 <= i < |permissions| ==>
           && (IsGranted(host, permissions[i]) ==> o.list[i] == Immediate(Permission(permissions[i], true, false)))
           && (!IsGranted(host, permissions[i]) && IsRevoked(host, permissions[i]) ==>
                 o.list[i] == Immediate(Permission(permissions[i], false, false)))
           && (NeedsPrompt(host, permissions[i]) ==>
                 permissions[i] in o.subjects && o.list[i] == Await(permissions[i], o.subjects[permissions[i]]))
    decreases |permissions|
  {
    if permissions != [] {
      var n := |permissions| - 1;
      var init := permissions[..n];
      var prev := PlanOf(host, subjects, nextChannel, init);
      var o := PlanOf(host, subjects, nextChannel, permissions);
      PlanSlots(host, subjects, nextChannel, init);
      PlanRegistry(host, prev.subjects, prev.nextChannel, [permissions[n]]);
      assert PlanOf(host, prev.subjects, prev.nextChannel, [permissions[n]]).subjects == o.subjects by {
        assert [permissions[n]][..0] == [];
      }
      forall i | 0 <= i < n
        ensures o.list[i] == prev.list[i]
        ensures NeedsPrompt(host, permissions[i]) ==> permissions[i] in prev.subjects && prev.subjects[permissions[i]] == o.subjects[permissions[i]]
      {
        assert init[i] == permissions[i];
      }
    }
  }

  /** The names a request must prompt for: those needing a prompt that have no entry yet. */
  function Unregistered(host: Host, subjects: map<string, ChannelId>): string -> bool
  {
    (n: string) => NeedsPrompt(host, n) && n !in subjects
  }

  /**
   * The prompt list is exactly the names that need a prompt and have no entry
   * yet, each once, in the order of their first occurrence in the input.
   */
  lemma {:induction false} PlanPrompt(host: Host, subjects: map<string, ChannelId>, nextChannel: ChannelId, permissions: seq<string>)
    ensures PlanOf(host, subjects, nextChannel, permissions).unrequested ==
            Distinct(Filter(permissions, Unregistered(host, subjects)))
    decreases |permissions|
  {
    if permissions != [] {
      var n := |permissions| - 1;
      var init, x := permissions[..n], permissions[n];
      var pred := Unregistered(host, subjects);
      var prev := PlanOf(host, subjects, nextChannel, init);
      var o := PlanOf(host, subjects, nextChannel, permissions);
      assert o == Step(host, prev, x);
      PlanPrompt(host, subjects, nextChannel, init);
      assert x in prev.subjects <==> x in subjects || x in prev.unrequested by {
        PlanRegistry(host, subjects, nextChannel, init);
      }
      StepPrompt(host, subjects, prev, x);
      DistinctFilterLast(permissions, pred);
    }
  }

  /** The prompt list holds no name twice and no name that was already pending. */
  lemma PromptListIsNew(host: Host, subjects: map<string, ChannelId>, nextChannel: ChannelId, permissions: seq<string>)
    ensures var o := PlanOf(host, subjects, nextChannel, permissions);
      && NoDuplicates(o.unrequested)
      && (forall j :: 0 <= j < |o.unrequested| ==> o.unrequested[j] !in subjects && NeedsPrompt(host, o.unrequested[j]))
  {
    PlanPrompt(host, subjects, nextChannel, permissions);
  }

  /** When every name is already granted, each gets a granted outcome at once and the registry is neither read nor changed. */
  lemma {:induction false} PlanAllGranted(host: Host, subjects: map<string, ChannelId>, nextChannel: ChannelId, permissions: seq<string>)
    requires forall i :: 0 <= i < |permissions| ==> IsGranted(host, permissions[i])
    ensures var o := PlanOf(host, subjects, nextChannel, permissions);
      && o.list == seq(|permissions|, i requires 0 <= i < |permissions| => Immediate(Permission(permissions[i], true, false)))
      && o.unrequested == [] && o.subjects == subjects && o.nextChannel == nextChannel
    decreases |permissions|
  {
    if permissions != [] {
      PlanAllGranted(host, subjects, nextChannel, permissions[..|permissions| - 1]);
    }
  }

  /** Before Marshmallow no name is prompted for or registered. */
  lemma PlanBeforeMarshmallow(host: Host, subjects: map<string, ChannelId>, nextChannel: ChannelId, permissions: seq<string>)
    requires !host.isMarshmallow
    ensures var o := PlanOf(host, subjects, nextChannel, permissions);
      && o.list == seq(|permissions|, i requires 0 <= i < |permissions| => Immediate(Permission(permissions[i], true, false)))
      && o.unrequested == [] && o.subjects == subjects && o.nextChannel == nextChannel
  {
    PlanAllGranted(host, subjects, nextChannel, permissions);
  }

  /**
   * A request keeps the fragment invariant, and no slot waits on a channel
   * that has already published: a resolved request is never reused.
   */
  lemma {:induction false} PlanKeepsInvariant(host: Host, subjects: map<string, ChannelId>, delivered: map<ChannelId, Permission>,
                                              nextChannel: ChannelId, permissions: seq<string>)
    requires RegistryInvariant(subjects, delivered, nextChannel)
    ensures var o := PlanOf(host, subjects, nextChannel, permissions);
      && RegistryInvariant(o.subjects, delivered, o.nextChannel)
      && (forall i :: 0 <= i < |o.list| && o.list[i].Await? ==> o.list[i].subject !in delivered)
    decreases |permissions|
  {
    if permissions != [] {
      var n := |permissions| - 1;
      var prev := PlanOf(host, subjects, nextChannel, permissions[..n]);
      PlanKeepsInvariant(host, subjects, delivered, nextChannel, permissions[..n]);
    }
  }

  /**
   * Two requests for the same name that needs a prompt: the first registers it
   * and prompts; the second prompts for nothing and waits on the same channel.
   */
  lemma SecondRequestSharesPrompt(host: Host, subjects: map<string, ChannelId>, nextChannel: ChannelId, name: string)
    requires NeedsPrompt(host, name) && name !in subjects
    ensures var first := PlanOf(host, subjects, nextChannel, [name]);
            var second := PlanOf(host, first.subjects, first.nextChannel, [name]);
      && first.unrequested == [name]
      && second.unrequested == []
      && second.list == first.list == [Await(name, nextChannel)]
  {
    assert [name][..0] == [];
  }

  /** After a request every name that needed a prompt has an entry, so repeating it prompts for nothing. */
  lemma RepeatedRequestPromptsNothing(host: Host, subjects: map<string, ChannelId>, nextChannel: ChannelId, permissions: seq<string>)
    ensures var first := PlanOf(host, subjects, nextChannel, permissions);
      PlanOf(host, first.subjects, first.nextChannel, permissions).unrequested == []
  {
    var first := PlanOf(host, subjects, nextChannel, permissions);
    var pred := Unregistered(host, subjects);
    PlanPrompt(host, subjects, nextChannel, permissions);
    PlanRegistry(host, subjects, nextChannel, permissions);
    forall i | 0 <= i < |permissions|
      ensures !Unregistered(host, first.subjects)(permissions[i])
    {
      if pred(permissions[i]) {
        assert permissions[i] in Filter(permissions, pred);
        assert permissions[i] in first.unrequested;
      }
    }
    FilterNone(permissions, Unregistered(host, first.subjects));
    PlanPrompt(host, first.subjects, first.nextChannel, permissions);
  }

  /**
   * Running the same request again, with no answer in between, prompts for
   * nothing, registers nothing and gives the same slots: every name that
   * needed a prompt now has an entry, and it waits on the same channel.
   */
  lemma RepeatedRequestReusesPlan(host: Host, subjects: map<string, ChannelId>, nextChannel: ChannelId, permissions: seq<string>)
    ensures var first := PlanOf(host, subjects, nextChannel, permissions);
      PlanOf(host, first.subjects, first.nextChannel, permissions) == Plan(first.list, [], first.subjects, first.nextChannel)
  {
    var first := PlanOf(host, subjects, nextChannel, permissions);
    var second := PlanOf(host, first.subjects, first.nextChannel, permissions);
    RepeatedRequestPromptsNothing(host, subjects, nextChannel, permissions);
    RegistryUnchangedWithoutPrompt(host, first.subjects, first.nextChannel, permissions);
    PlanSlots(host, subjects, nextChannel, permissions);
    PlanSlots(host, first.subjects, first.nextChannel, permissions);
    forall i | 0 <= i < |permissions|
      ensures second.list[i] == first.list[i]
    {
    }
  }

  /** A request that prompts for nothing leaves the registry and the counter as they were. */
  lemma RegistryUnchangedWithoutPrompt(host: Host, subjects: map<string, ChannelId>, nextChannel: ChannelId, permissions: seq<string>)
    requires PlanOf(host, subjects, nextChannel, permissions).unrequested == []
    ensures var o := PlanOf(host, subjects, nextChannel, permissions);
      o.subjects == subjects && o.nextChannel == nextChannel
  {
    PlanRegistry(host, subjects, nextChannel, permissions);
  }

  /** Every slot that waits does so on a channel older than the counter after the request. */
  lemma PlanChannelsBelow(host: Host, subjects: map<string, ChannelId>, nextChannel: ChannelId, permissions: seq<string>)
    requires forall n :: n in subjects ==> subjects[n] < nextChannel
    ensures var o := PlanOf(host, subjects, nextChannel, permissions);
      forall i :: 0 <= i < |o.list| && o.list[i].Await? ==> o.list[i].subject < o.nextChannel
  {
    var o := PlanOf(host, subjects, nextChannel, permissions);
    PlanSlots(host, subjects, nextChannel, permissions);
    PlanRegistry(host, subjects, nextChannel, permissions);
    forall i | 0 <= i < |o.list| && o.list[i].Await?
      ensures o.list[i].subject < o.nextChannel
    {
      var n := permissions[i];
      if n !in subjects {
        var j :| 0 <= j < |o.unrequested| && o.unrequested[j] == n;
      }
    }
  }

  /**
   * The first occurrence of a name that needs a prompt and had no entry waits
   * on a channel newer than that of every earlier waiting slot.
   */
  lemma {:induction false} PlanFirstOccurrenceIsNewest(host: Host, subjects: map<string, ChannelId>, nextChannel: ChannelId,
                                                       permissions: seq<string>)
    requires forall n :: n in subjects ==> subjects[n] < nextChannel
    ensures var o := PlanOf(host, subjects, nextChannel, permissions);
      forall i, i' :: 0 <= i' < i < |permissions| && NeedsPrompt(host, permissions[i]) && permissions[i] !in subjects &&
                      permissions[i] !in permissions[..i] && o.list[i'].Await? ==>
        o.list[i].Await? && o.list[i'].subject < o.list[i].subject
    decreases |permissions|
  {
    if permissions != [] {
      var n := |permissions| - 1;
      var init, x := permissions[..n], permissions[n];
      var prev := PlanOf(host, subjects, nextChannel, init);
      var o := PlanOf(host, subjects, nextChannel, permissions);
      assert o == Step(host, prev, x);
      PlanFirstOccurrenceIsNewest(host, subjects, nextChannel, init);
      PlanChannelsBelow(host, subjects, nextChannel, init);
      StepKeepsSlots(host, prev, x);
      if NeedsPrompt(host, x) && x !in subjects && x !in init {
        assert x !in prev.unrequested by {
          PlanPrompt(host, subjects, nextChannel, init);
        }
        assert x !in prev.subjects by {
          PlanRegistry(host, subjects, nextChannel, init);
        }
        StepRegistersNew(host, prev, x);
      }
      forall i, i' | 0 <= i' < i < |permissions| && NeedsPrompt(host, permissions[i]) && permissions[i] !in subjects &&
                     permissions[i] !in permissions[..i] && o.list[i'].Await?
        ensures o.list[i].Await? && o.list[i'].subject < o.list[i].subject
      {
        if i < n {
          assert init[i] == permissions[i] && init[..i] == permissions[..i];
        } else {
          assert permissions[..i] == init;
        }
      }
    }
  }

  // ---- Output of a request: the concatenated stream of slot values ----

  /**
   * `Observable.concat` over the slots of a request, subscribed when the
   * request is made, when the publication log had length `from`. Each slot is
   * subscribed once the previous one completes. An immediate slot contributes
   * its outcome. A waiting slot contributes its channel's outcome if the
   * channel publishes after the slot subscribed, and nothing if the channel
   * had already completed (a PublishSubject does not replay). The result
   * gives, per slot, what it contributed, once every awaited channel has
   * completed; None while the stream is still waiting.
   */
  function Concat(list: seq<Slot>, delivered: map<ChannelId, Permission>, log: seq<ChannelId>, from: nat)
    : (r: Option<seq<Option<Permission>>>)
    requires LogMatches(delivered, log)
    ensures r.Some? <==> forall i :: 0 <= i < |list| && list[i].Await? ==> list[i].subject in delivered
    ensures r.Some? ==> |r.value| == |list|
    decreases |list|
  {
    if list == [] then Some([])
    else
      assert forall i :: 1 <= i < |list| ==> list[i] == list[1..][i - 1];
      if list[0].Immediate? then
        var tail := Concat(list[1..], delivered, log, from);
        if tail.None? then None else Some([Some(list[0].permission)] + tail.value)
      else if list[0].subject !in delivered then None
      else
        var k := IndexOf(log, list[0].subject);
        var tail := Concat(list[1..], delivered, log, if from <= k then k + 1 else from);
        if tail.None? then None
        else Some([if from <= k then Some(delivered[list[0].subject]) else None] + tail.value)
  }

  /** The first slot's contribution, and the cursor the remaining slots start from. */
  lemma ConcatHead(list: seq<Slot>, delivered: map<ChannelId, Permission>, log: seq<ChannelId>, from: nat)
    requires LogMatches(delivered, log)
    requires list != [] && Concat(list, delivered, log, from).Some?
    ensures var from' := if list[0].Await? && from <= IndexOf(log, list[0].subject) then IndexOf(log, list[0].subject) + 1 else from;
      && Concat(list[1..], delivered, log, from').Some?
      && Concat(list, delivered, log, from).value ==
         [if list[0].Immediate? then Some(list[0].permission)
          else if from <= IndexOf(log, list[0].subject) then Some(delivered[list[0].subject])
          else None] + Concat(list[1..], delivered, log, from').value
  {
  }

  /**
   * What each slot contributes to the completed output: an immediate slot its
   * outcome; a waiting slot its channel's outcome iff the channel published
   * after the request and after every channel an earlier slot waited on.
   */
  lemma {:induction false} ConcatCharacterised(list: seq<Slot>, delivered: map<ChannelId, Permission>, log: seq<ChannelId>, from: nat)
    requires LogMatches(delivered, log)
    requires Concat(list, delivered, log, from).Some?
    ensures var r := Concat(list, delivered, log, from).value;
      forall i :: 0 <= i < |list| ==>
        && (list[i].Immediate? ==> r[i] == Some(list[i].permission))
        && (list[i].Await? ==>
              && (r[i].Some? <==>
                    from <= IndexOf(log, list[i].subject) &&
                    forall j :: 0 <= j < i && list[j].Await? ==> IndexOf(log, list[j].subject) < IndexOf(log, list[i].subject))
              && (r[i].Some? ==> r[i].value == delivered[list[i].subject]))
    decreases |list|
  {
    if list != [] {
      var t := list[1..];
      var from' := if list[0].Await? && from <= IndexOf(log, list[0].subject) then IndexOf(log, list[0].subject) + 1 else from;
      ConcatHead(list, delivered, log, from);
      ConcatCharacterised(t, delivered, log, from');
      var r := Concat(list, delivered, log, from).value;
      var r' := Concat(t, delivered, log, from').value;
      forall i | 1 <= i < |list|
        ensures list[i] == t[i - 1] && r[i] == r'[i - 1]
      {
      }
    }
  }


  /**
   * Concatenation over slots whose channels published in the order of their
   * identities, all after the request: a waiting slot contributes iff its
   * channel is newer than that of every earlier waiting slot, and then
   * contributes what its channel published.
   */
  lemma ConcatOfOrderedChannels(list: seq<Slot>, delivered: map<ChannelId, Permission>, log: seq<ChannelId>, from: nat, base: ChannelId)
    requires LogMatches(delivered, log)
    requires forall i :: 0 <= i < |list| && list[i].Await? ==>
               base <= list[i].subject && list[i].subject in log && IndexOf(log, list[i].subject) == from + (list[i].subject - base)
    ensures Concat(list, delivered, log, from).Some?
    ensures var out := Concat(list, delivered, log, from).value;
      forall i :: 0 <= i < |list| && list[i].Await? ==>
        && (out[i].Some? <==> forall i' :: 0 <= i' < i && list[i'].Await? ==> list[i'].subject < list[i].subject)
        && (out[i].Some? ==> out[i].value == delivered[list[i].subject])
  {
    ConcatCharacterised(list, delivered, log, from);
  }

  /** The values a stream of per-slot contributions emits: those present, in order. */
  function Emitted(xs: seq<Option<Permission>>): (r: seq<Permission>)
    ensures |r| <= |xs|
    ensures xs == [] ==> r == []
    ensures |xs| == 1 ==> r == (if xs[0].Some? then [xs[0].value] else [])
    ensures forall p :: p in r <==> exists i :: 0 <= i < |xs| && xs[i] == Some(p)
  {
    if xs == [] then []
    else
      var tail := Emitted(xs[1..]);
      assert forall i :: 1 <= i < |xs| ==> xs[i] == xs[1..][i - 1];
      assert forall p :: (exists i :: 0 <= i < |xs[1..]| && xs[1..][i] == Some(p)) ==>
                         (exists i :: 0 <= i < |xs| && xs[i] == Some(p));
      (if xs[0].Some? then [xs[0].value] else []) + tail
  }

  /**
   * The stream of a concatenation is the stream of the first part followed by
   * that of the second: with the one-slot cases, this fixes the order and the
   * number of times each value is emitted.
   */
  lemma {:induction false} EmittedAppend(a: seq<Option<Permission>>, b: seq<Option<Permission>>)
    ensures Emitted(a + b) == Emitted(a) + Emitted(b)
    decreases |a|
  {
    if a == [] {
      assert a + b == b;
    } else {
      var head: seq<Permission> := if a[0].Some? then [a[0].value] else [];
      assert (a + b)[0] == a[0] && (a + b)[1..] == a[1..] + b;
      assert Emitted(a + b) == head + Emitted(a[1..] + b);
      EmittedAppend(a[1..], b);
      assert Emitted(a) == head + Emitted(a[1..]);
    }
  }

  /** `ensure`'s reduction of one buffer: nothing for an empty buffer, else whether all are granted. */
  function EnsureReduce(buffer: seq<Permission>): (r: seq<bool>)
    ensures |buffer| == 0 ==> r == []
    ensures |buffer| > 0 ==> r == [forall i :: 0 <= i < |buffer| ==> buffer[i].granted]
  {
    if |buffer| == 0 then []
    else if FirstOrNull(buffer, (p: Permission) => !p.granted).Some? then [false]
    else [true]
  }

  /** `ensureEachCombined`'s reduction of one buffer: nothing for an empty buffer, else the combination. */
  function EnsureEachCombinedReduce(buffer: seq<Permission>): (r: seq<Permission>)
    ensures |buffer| == 0 ==> r == []
    ensures |buffer| > 0 ==> |r| == 1 && r[0].name == JoinToString(Names(buffer))
    ensures |buffer| > 0 ==> (r[0].granted <==> forall i :: 0 <= i < |buffer| ==> buffer[i].granted)
    ensures |buffer| > 0 ==> (r[0].shouldShowRationale <==> forall i :: 0 <= i < |buffer| ==> buffer[i].shouldShowRationale)
  {
    if |buffer| == 0 then [] else [Combine(buffer)]
  }

  /** The boolean shape is the granted flag of the combined shape. */
  lemma EnsureIsCombinedGranted(buffer: seq<Permission>)
    requires |buffer| > 0
    ensures EnsureReduce(buffer) == [EnsureEachCombinedReduce(buffer)[0].granted]
  {
  }

  /** A request whose names are all granted completes at once, prompts for nothing and yields `true` from `ensure`. */
  lemma AllGrantedEnsuresTrue(host: Host, subjects: map<string, ChannelId>, nextChannel: ChannelId,
                              delivered: map<ChannelId, Permission>, log: seq<ChannelId>, permissions: seq<string>)
    requires |permissions| > 0 && LogMatches(delivered, log)
    requires forall i :: 0 <= i < |permissions| ==> IsGranted(host, permissions[i])
    ensures var o := PlanOf(host, subjects, nextChannel, permissions);
      && o.unrequested == [] && o.subjects == subjects
      && Concat(o.list, delivered, log, |log|).Some?
      && EnsureReduce(Emitted(Concat(o.list, delivered, log, |log|).value)) == [true]
  {
    var o := PlanOf(host, subjects, nextChannel, permissions);
    PlanAllGranted(host, subjects, nextChannel, permissions);
    ConcatCharacterised(o.list, delivered, log, |log|);
    var out := Concat(o.list, delivered, log, |log|).value;
    var e := Emitted(out);
    assert out[0] == Some(o.list[0].permission);
    assert o.list[0].permission in e;
    forall i | 0 <= i < |e|
      ensures e[i].granted
    {
      assert e[i] in e;
      var j :| 0 <= j < |out| && out[j] == Some(e[i]);
    }
  }

  /** A request with a revoked, ungranted name yields `false` from `ensure` once it completes. */
  lemma RevokedEnsuresFalse(host: Host, subjects: map<string, ChannelId>, nextChannel: ChannelId,
                            delivered: map<ChannelId, Permission>, log: seq<ChannelId>, permissions: seq<string>, k: nat)
    requires k < |permissions| && !IsGranted(host, permissions[k]) && IsRevoked(host, permissions[k])
    requires LogMatches(delivered, log)
    requires Concat(PlanOf(host, subjects, nextChannel, permissions).list, delivered, log, |log|).Some?
    ensures EnsureReduce(Emitted(Concat(PlanOf(host, subjects, nextChannel, permissions).list, delivered, log, |log|).value)) == [false]
  {
    var o := PlanOf(host, subjects, nextChannel, permissions);
    PlanSlots(host, subjects, nextChannel, permissions);
    ConcatCharacterised(o.list, delivered, log, |log|);
    var out := Concat(o.list, delivered, log, |log|).value;
    var p := Permission(permissions[k], false, false);
    assert out[k] == Some(p);
    assert p in Emitted(out);
  }

  /** The prompt list is dispatched in full: each of its names is registered after the request, and none repeats. */
  lemma PromptIsFullyDispatched(host: Host, subjects: map<string, ChannelId>, nextChannel: ChannelId, permissions: seq<string>)
    ensures var o := PlanOf(host, subjects, nextChannel, permissions);
      StopIndex(o.subjects.Keys, o.unrequested, 0) == |o.unrequested|
  {
    var o := PlanOf(host, subjects, nextChannel, permissions);
    var u := o.unrequested;
    PlanRegistry(host, subjects, nextChannel, permissions);
    PromptListIsNew(host, subjects, nextChannel, permissions);
    StopIndexCharacterised(o.subjects.Keys, u, 0);
  }

  /**
   * Once the platform answers the prompt of a request, with one grant code and
   * one rationale flag per prompted name, every prompted name has left the
   * registry and its channel has published the outcome for that name.
   */
  lemma AnswerPublishesPrompted(host: Host, subjects: map<string, ChannelId>, delivered: map<ChannelId, Permission>,
                                log: seq<ChannelId>, nextChannel: ChannelId, permissions: seq<string>,
                                grantResults: seq<int>, flags: seq<bool>)
    requires RegistryInvariant(subjects, delivered, nextChannel)
    requires Parallel(grantResults, flags, PlanOf(host, subjects, nextChannel, permissions).unrequested)
    ensures var o := PlanOf(host, subjects, nextChannel, permissions);
            var r := DispatchFrom(Channels(o.subjects, delivered, log), grantResults, flags, o.unrequested, 0);
      forall j :: 0 <= j < |o.unrequested| ==>
        && o.unrequested[j] !in subjects && o.unrequested[j] !in r.subjects
        && o.unrequested[j] in o.subjects && o.subjects[o.unrequested[j]] == nextChannel + j
        && nextChannel + j in r.delivered
        && r.delivered[nextChannel + j] == Outcome(grantResults, flags, o.unrequested, j)
  {
    var o := PlanOf(host, subjects, nextChannel, permissions);
    var u := o.unrequested;
    PlanKeepsInvariant(host, subjects, delivered, nextChannel, permissions);
    PlanRegistry(host, subjects, nextChannel, permissions);
    PromptIsFullyDispatched(host, subjects, nextChannel, permissions);
    DispatchFreshBatch(o.subjects, delivered, log, o.nextChannel, nextChannel, grantResults, flags, u);
    var r := DispatchFrom(Channels(o.subjects, delivered, log), grantResults, flags, u, 0);
    forall j | 0 <= j < |u|
      ensures u[j] !in subjects && u[j] !in r.subjects
      ensures u[j] in o.subjects && o.subjects[u[j]] == nextChannel + j
      ensures nextChannel + j in r.delivered
      ensures r.delivered[nextChannel + j] == Outcome(grantResults, flags, u, j)
    {
    }
  }

  /**
   * Where the answer to a request's prompt lands in the publication log: the
   * channel of the j-th prompted name, `nextChannel + j`, is the j-th entry
   * after the earlier log.
   */
  lemma AnswerLogPositions(host: Host, subjects: map<string, ChannelId>, delivered: map<ChannelId, Permission>,
                           log: seq<ChannelId>, nextChannel: ChannelId, permissions: seq<string>,
                           grantResults: seq<int>, flags: seq<bool>)
    requires RegistryInvariant(subjects, delivered, nextChannel) && LogMatches(delivered, log)
    requires Parallel(grantResults, flags, PlanOf(host, subjects, nextChannel, permissions).unrequested)
    ensures var o := PlanOf(host, subjects, nextChannel, permissions);
            var r := DispatchFrom(Channels(o.subjects, delivered, log), grantResults, flags, o.unrequested, 0);
      && LogMatches(r.delivered, r.log)
      && forall c :: nextChannel <= c < nextChannel + |o.unrequested| ==>
           c in r.log && IndexOf(r.log, c) == |log| + (c - nextChannel)
  {
    var o := PlanOf(host, subjects, nextChannel, permissions);
    var u := o.unrequested;
    PlanRegistry(host, subjects, nextChannel, permissions);
    PromptIsFullyDispatched(host, subjects, nextChannel, permissions);
    DispatchLogsFreshChannels(o.subjects, delivered, log, nextChannel, grantResults, flags, u);
  }

  /** A registry extended by a list of names, the j-th on channel `base + j`, maps each new name back to its place. */
  lemma RegisteredInOrder(before: map<string, ChannelId>, after: map<string, ChannelId>, added: seq<string>, base: ChannelId)
    requires forall n :: n in after <==> n in before || n in added
    requires forall j :: 0 <= j < |added| ==> added[j] in after && after[added[j]] == base + j
    ensures forall n :: n in after && n !in before ==>
              base <= after[n] < base + |added| && added[after[n] - base] == n
  {
    forall n | n in after && n !in before
      ensures base <= after[n] < base + |added| && added[after[n] - base] == n
    {
      var j :| 0 <= j < |added| && added[j] == n;
    }
  }

  /** The channel of each name a request registered is that of its place in the prompt list. */
  lemma NewChannelsInPromptOrder(host: Host, subjects: map<string, ChannelId>, nextChannel: ChannelId, permissions: seq<string>)
    ensures var o := PlanOf(host, subjects, nextChannel, permissions);
      forall n :: n in o.subjects && n !in subjects ==>
        && nextChannel <= o.subjects[n] < nextChannel + |o.unrequested|
        && o.unrequested[o.subjects[n] - nextChannel] == n
  {
    var o := PlanOf(host, subjects, nextChannel, permissions);
    PlanRegistry(host, subjects, nextChannel, permissions);
    RegisteredInOrder(subjects, o.subjects, o.unrequested, nextChannel);
  }

  /**
   * In a request none of whose names was pending, exactly the slots of names
   * that need a prompt wait, each on the channel of its name, which is the
   * channel of that name's place in the prompt list.
   */
  lemma NewNamesWaitInPromptOrder(host: Host, subjects: map<string, ChannelId>, nextChannel: ChannelId, permissions: seq<string>)
    requires forall i :: 0 <= i < |permissions| ==> permissions[i] !in subjects
    ensures var o := PlanOf(host, subjects, nextChannel, permissions);
      forall i :: 0 <= i < |permissions| ==>
        && (o.list[i].Await? <==> NeedsPrompt(host, permissions[i]))
        && (NeedsPrompt(host, permissions[i]) ==>
              && permissions[i] in o.subjects
              && o.list[i] == Await(permissions[i], o.subjects[permissions[i]])
              && nextChannel <= o.subjects[permissions[i]] < nextChannel + |o.unrequested|
              && o.unrequested[o.subjects[permissions[i]] - nextChannel] == permissions[i])
  {
    PlanSlots(host, subjects, nextChannel, permissions);
    NewChannelsInPromptOrder(host, subjects, nextChannel, permissions);
  }

  /**
   * In a request none of whose names was pending, once its prompt is
   * answered, the channels its slots wait on published after the request, in
   * the order of their identities.
   */
  lemma AnsweredChannelsInOrder(host: Host, subjects: map<string, ChannelId>, delivered: map<ChannelId, Permission>,
                                log: seq<ChannelId>, nextChannel: ChannelId, permissions: seq<string>,
                                grantResults: seq<int>, flags: seq<bool>)
    requires RegistryInvariant(subjects, delivered, nextChannel) && LogMatches(delivered, log)
    requires forall i :: 0 <= i < |permissions| ==> permissions[i] !in subjects
    requires Parallel(grantResults, flags, PlanOf(host, subjects, nextChannel, permissions).unrequested)
    ensures var o := PlanOf(host, subjects, nextChannel, permissions);
            var r := DispatchFrom(Channels(o.subjects, delivered, log), grantResults, flags, o.unrequested, 0);
      && LogMatches(r.delivered, r.log)
      && forall i :: 0 <= i < |o.list| && o.list[i].Await? ==>
           && nextChannel <= o.list[i].subject && o.list[i].subject in r.log
           && IndexOf(r.log, o.list[i].subject) == |log| + (o.list[i].subject - nextChannel)
  {
    var o := PlanOf(host, subjects, nextChannel, permissions);
    var u := o.unrequested;
    NewNamesWaitInPromptOrder(host, subjects, nextChannel, permissions);
    AnswerLogPositions(host, subjects, delivered, log, nextChannel, permissions, grantResults, flags);
    forall i | 0 <= i < |o.list| && o.list[i].Await?
      ensures nextChannel <= o.list[i].subject < nextChannel + |u|
    {
      assert NeedsPrompt(host, permissions[i]);
    }
  }

  /**
   * In a request none of whose names was pending, once its prompt is
   * answered, the output is complete; a waiting slot contributes iff its
   * channel is newer than that of every earlier waiting slot, and then
   * contributes what its channel published.
   */
  lemma AnsweredSlotByChannel(host: Host, subjects: map<string, ChannelId>, delivered: map<ChannelId, Permission>,
                              log: seq<ChannelId>, nextChannel: ChannelId, permissions: seq<string>,
                              grantResults: seq<int>, flags: seq<bool>)
    requires RegistryInvariant(subjects, delivered, nextChannel) && LogMatches(delivered, log)
    requires forall i :: 0 <= i < |permissions| ==> permissions[i] !in subjects
    requires Parallel(grantResults, flags, PlanOf(host, subjects, nextChannel, permissions).unrequested)
    ensures var o := PlanOf(host, subjects, nextChannel, permissions);
            var r := DispatchFrom(Channels(o.subjects, delivered, log), grantResults, flags, o.unrequested, 0);
      && LogMatches(r.delivered, r.log)
      && Concat(o.list, r.delivered, r.log, |log|).Some?
      && var out := Concat(o.list, r.delivered, r.log, |log|).value;
      forall i :: 0 <= i < |o.list| && o.list[i].Await? ==>
        && (out[i].Some? <==> forall i' :: 0 <= i' < i && o.list[i'].Await? ==> o.list[i'].subject < o.list[i].subject)
        && (out[i].Some? ==> out[i].value == r.delivered[o.list[i].subject])
  {
    var o := PlanOf(host, subjects, nextChannel, permissions);
    var u := o.unrequested;
    var r := DispatchFrom(Channels(o.subjects, delivered, log), grantResults, flags, u, 0);
    AnsweredChannelsInOrder(host, subjects, delivered, log, nextChannel, permissions, grantResults, flags);
    ConcatOfOrderedChannels(o.list, r.delivered, r.log, |log|, nextChannel);
  }

  /**
   * A repeated name that needs a prompt, in a request none of whose names was
   * pending: its later slot waits on the same channel as its earlier one.
   */
  lemma RepeatSharesChannel(host: Host, subjects: map<string, ChannelId>, nextChannel: ChannelId, permissions: seq<string>,
                            i': nat, i: nat)
    requires forall i :: 0 <= i < |permissions| ==> permissions[i] !in subjects
    requires i' < i < |permissions| && permissions[i'] == permissions[i] && NeedsPrompt(host, permissions[i])
    ensures var o := PlanOf(host, subjects, nextChannel, permissions);
      o.list[i'].Await? && o.list[i'] == o.list[i]
  {
    NewNamesWaitInPromptOrder(host, subjects, nextChannel, permissions);
  }

  /** `NewNamesWaitInPromptOrder` for one slot. */
  lemma NewNameAt(host: Host, subjects: map<string, ChannelId>, nextChannel: ChannelId, permissions: seq<string>, i: nat)
    requires forall i :: 0 <= i < |permissions| ==> permissions[i] !in subjects
    requires i < |permissions| && NeedsPrompt(host, permissions[i])
    ensures var o := PlanOf(host, subjects, nextChannel, permissions);
            var name := permissions[i];
      && name in o.subjects
      && o.list[i] == Await(name, o.subjects[name])
      && nextChannel <= o.subjects[name] < nextChannel + |o.unrequested|
      && o.unrequested[o.subjects[name] - nextChannel] == name
  {
    NewNamesWaitInPromptOrder(host, subjects, nextChannel, permissions);
  }

  /** The slot of a name's first occurrence waits on the channel of the name's place in the prompt list. */
  lemma FirstSlotChannel(host: Host, subjects: map<string, ChannelId>, nextChannel: ChannelId, permissions: seq<string>, i: nat)
    requires forall i :: 0 <= i < |permissions| ==> permissions[i] !in subjects
    requires i < |permissions| && NeedsPrompt(host, permissions[i])
    ensures var o := PlanOf(host, subjects, nextChannel, permissions);
      && o.list[i].Await?
      && permissions[i] in o.unrequested
      && forall j :: 0 <= j < |o.unrequested| && o.unrequested[j] == permissions[i] ==>
           o.list[i] == Await(permissions[i], nextChannel + j)
  {
    NewNameAt(host, subjects, nextChannel, permissions, i);
    PromptListIsNew(host, subjects, nextChannel, permissions);
  }

  /** `AnsweredSlotByChannel` for one waiting slot whose channel is newer than every earlier one. */
  lemma AnsweredNewestSlotAt(host: Host, subjects: map<string, ChannelId>, delivered: map<ChannelId, Permission>,
                             log: seq<ChannelId>, nextChannel: ChannelId, permissions: seq<string>,
                             grantResults: seq<int>, flags: seq<bool>, i: nat)
    requires RegistryInvariant(subjects, delivered, nextChannel) && LogMatches(delivered, log)
    requires forall i :: 0 <= i < |permissions| ==> permissions[i] !in subjects
    requires Parallel(grantResults, flags, PlanOf(host, subjects, nextChannel, permissions).unrequested)
    requires var o := PlanOf(host, subjects, nextChannel, permissions);
      && i < |permissions| && o.list[i].Await?
      && forall i' :: 0 <= i' < i && o.list[i'].Await? ==> o.list[i'].subject < o.list[i].subject
    ensures var o := PlanOf(host, subjects, nextChannel, permissions);
            var r := DispatchFrom(Channels(o.subjects, delivered, log), grantResults, flags, o.unrequested, 0);
      && LogMatches(r.delivered, r.log)
      && Concat(o.list, r.delivered, r.log, |log|).Some?
      && o.list[i].subject in r.delivered
      && Concat(o.list, r.delivered, r.log, |log|).value[i] == Some(r.delivered[o.list[i].subject])
  {
    AnsweredSlotByChannel(host, subjects, delivered, log, nextChannel, permissions, grantResults, flags);
  }

  /** `PlanFirstOccurrenceIsNewest` for one pair of slots. */
  lemma FirstOccurrenceIsNewestAt(host: Host, subjects: map<string, ChannelId>, nextChannel: ChannelId,
                                  permissions: seq<string>, i': nat, i: nat)
    requires forall n :: n in subjects ==> subjects[n] < nextChannel
    requires i' < i < |permissions| && NeedsPrompt(host, permissions[i]) && permissions[i] !in subjects
    requires permissions[i] !in permissions[..i] && PlanOf(host, subjects, nextChannel, permissions).list[i'].Await?
    ensures var o := PlanOf(host, subjects, nextChannel, permissions);
      o.list[i].Await? && o.list[i'].subject < o.list[i].subject
  {
    PlanFirstOccurrenceIsNewest(host, subjects, nextChannel, permissions);
  }

  /**
   * A later slot of a repeated name that needs a prompt, in a request none of
   * whose names was pending, contributes nothing once the prompt is answered:
   * it subscribes to a channel that has already completed.
   */
  lemma AnsweredRepeatSlot(host: Host, subjects: map<string, ChannelId>, delivered: map<ChannelId, Permission>,
                           log: seq<ChannelId>, nextChannel: ChannelId, permissions: seq<string>,
                           grantResults: seq<int>, flags: seq<bool>, i': nat, i: nat)
    requires RegistryInvariant(subjects, delivered, nextChannel) && LogMatches(delivered, log)
    requires forall i :: 0 <= i < |permissions| ==> permissions[i] !in subjects
    requires Parallel(grantResults, flags, PlanOf(host, subjects, nextChannel, permissions).unrequested)
    requires i' < i < |permissions| && permissions[i'] == permissions[i] && NeedsPrompt(host, permissions[i])
    ensures var o := PlanOf(host, subjects, nextChannel, permissions);
            var r := DispatchFrom(Channels(o.subjects, delivered, log), grantResults, flags, o.unrequested, 0);
      && LogMatches(r.delivered, r.log)
      && Concat(o.list, r.delivered, r.log, |log|).Some?
      && Concat(o.list, r.delivered, r.log, |log|).value[i].None?
  {
    AnsweredSlotByChannel(host, subjects, delivered, log, nextChannel, permissions, grantResults, flags);
    RepeatSharesChannel(host, subjects, nextChannel, permissions, i', i);
  }

  /** The first slot of a prompted name contributes what its channel published. */
  lemma AnsweredFirstSlotValue(host: Host, subjects: map<string, ChannelId>, delivered: map<ChannelId, Permission>,
                               log: seq<ChannelId>, nextChannel: ChannelId, permissions: seq<string>,
                               grantResults: seq<int>, flags: seq<bool>, i: nat)
    requires RegistryInvariant(subjects, delivered, nextChannel) && LogMatches(delivered, log)
    requires forall i :: 0 <= i < |permissions| ==> permissions[i] !in subjects
    requires Parallel(grantResults, flags, PlanOf(host, subjects, nextChannel, permissions).unrequested)
    requires i < |permissions| && NeedsPrompt(host, permissions[i]) && permissions[i] !in permissions[..i]
    ensures var o := PlanOf(host, subjects, nextChannel, permissions);
            var r := DispatchFrom(Channels(o.subjects, delivered, log), grantResults, flags, o.unrequested, 0);
      && LogMatches(r.delivered, r.log)
      && Concat(o.list, r.delivered, r.log, |log|).Some?
      && o.list[i].Await? && o.list[i].subject in r.delivered
      && Concat(o.list, r.delivered, r.log, |log|).value[i] == Some(r.delivered[o.list[i].subject])
  {
    var o := PlanOf(host, subjects, nextChannel, permissions);
    FirstSlotChannel(host, subjects, nextChannel, permissions, i);
    forall i' | 0 <= i' < i && o.list[i'].Await?
      ensures o.list[i'].subject < o.list[i].subject
    {
      FirstOccurrenceIsNewestAt(host, subjects, nextChannel, permissions, i', i);
    }
    AnsweredNewestSlotAt(host, subjects, delivered, log, nextChannel, permissions, grantResults, flags, i);
  }

  /**
   * The first slot of a name that needs a prompt, in a request none of whose
   * names was pending, contributes the platform's answer for that name once
   * the prompt is answered.
   */
  lemma AnsweredFirstSlot(host: Host, subjects: map<string, ChannelId>, delivered: map<ChannelId, Permission>,
                          log: seq<ChannelId>, nextChannel: ChannelId, permissions: seq<string>,
                          grantResults: seq<int>, flags: seq<bool>, i: nat)
    requires RegistryInvariant(subjects, delivered, nextChannel) && LogMatches(delivered, log)
    requires forall i :: 0 <= i < |permissions| ==> permissions[i] !in subjects
    requires Parallel(grantResults, flags, PlanOf(host, subjects, nextChannel, permissions).unrequested)
    requires i < |permissions| && NeedsPrompt(host, permissions[i]) && permissions[i] !in permissions[..i]
    ensures var o := PlanOf(host, subjects, nextChannel, permissions);
            var r := DispatchFrom(Channels(o.subjects, delivered, log), grantResults, flags, o.unrequested, 0);
      && LogMatches(r.delivered, r.log)
      && Concat(o.list, r.delivered, r.log, |log|).Some?
      && permissions[i] in o.unrequested
      && forall j :: 0 <= j < |o.unrequested| && o.unrequested[j] == permissions[i] ==>
           Concat(o.list, r.delivered, r.log, |log|).value[i] == Some(Outcome(grantResults, flags, o.unrequested, j))
  {
    var o := PlanOf(host, subjects, nextChannel, permissions);
    var u := o.unrequested;
    var name := permissions[i];
    FirstSlotChannel(host, subjects, nextChannel, permissions, i);
    AnsweredFirstSlotValue(host, subjects, delivered, log, nextChannel, permissions, grantResults, flags, i);
    AnswerPublishesPrompted(host, subjects, delivered, log, nextChannel, permissions, grantResults, flags);
    var r := DispatchFrom(Channels(o.subjects, delivered, log), grantResults, flags, u, 0);
    var out := Concat(o.list, r.delivered, r.log, |log|).value;
    SlotOnChannelCarries(out, i, o.list[i], r.delivered, u, name, nextChannel, grantResults, flags);
  }

  /** A slot on channel `base + j` for the j-th name, where that channel published the j-th outcome, carries that outcome. */
  lemma SlotOnChannelCarries(out: seq<Option<Permission>>, i: nat, slot: Slot, delivered: map<ChannelId, Permission>,
                             u: seq<string>, name: string, base: ChannelId, grantResults: seq<int>, flags: seq<bool>)
    requires Parallel(grantResults, flags, u)
    requires i < |out| && slot.Await? && slot.subject in delivered && out[i] == Some(delivered[slot.subject])
    requires forall j :: 0 <= j < |u| && u[j] == name ==> slot == Await(name, base + j)
    requires forall j :: 0 <= j < |u| && u[j] == name ==>
               base + j in delivered && delivered[base + j] == Outcome(grantResults, flags, u, j)
    ensures forall j :: 0 <= j < |u| && u[j] == name ==> out[i] == Some(Outcome(grantResults, flags, u, j))
  {
  }

  /** Once a request's output is complete, a name that needs no prompt contributes its immediate outcome. */
  lemma ImmediateSlotsPassThrough(host: Host, subjects: map<string, ChannelId>, nextChannel: ChannelId, permissions: seq<string>,
                                  delivered: map<ChannelId, Permission>, log: seq<ChannelId>, from: nat)
    requires LogMatches(delivered, log)
    requires Concat(PlanOf(host, subjects, nextChannel, permissions).list, delivered, log, from).Some?
    ensures var o := PlanOf(host, subjects, nextChannel, permissions);
            var out := Concat(o.list, delivered, log, from).value;
      forall i :: 0 <= i < |permissions| && !NeedsPrompt(host, permissions[i]) ==>
        o.list[i].Immediate? && out[i] == Some(o.list[i].permission)
  {
    var o := PlanOf(host, subjects, nextChannel, permissions);
    PlanSlots(host, subjects, nextChannel, permissions);
    ConcatCharacterised(o.list, delivered, log, from);
  }

  /**
   * The output of a request none of whose names was pending, once its prompt
   * is answered: it is complete, with one entry per name. A granted or
   * revoked name gives its immediate outcome. A prompted name gives the
   * platform's answer at its first occurrence, and nothing at a repeat, whose
   * slot subscribes to a channel that has already completed.
   */
  lemma AnsweredRequestOutput(host: Host, subjects: map<string, ChannelId>, delivered: map<ChannelId, Permission>,
                              log: seq<ChannelId>, nextChannel: ChannelId, permissions: seq<string>,
                              grantResults: seq<int>, flags: seq<bool>)
    requires RegistryInvariant(subjects, delivered, nextChannel) && LogMatches(delivered, log)
    requires forall i :: 0 <= i < |permissions| ==> permissions[i] !in subjects
    requires Parallel(grantResults, flags, PlanOf(host, subjects, nextChannel, permissions).unrequested)
    ensures var o := PlanOf(host, subjects, nextChannel, permissions);
            var r := DispatchFrom(Channels(o.subjects, delivered, log), grantResults, flags, o.unrequested, 0);
      && LogMatches(r.delivered, r.log)
      && Concat(o.list, r.delivered, r.log, |log|).Some?
      && var out := Concat(o.list, r.delivered, r.log, |log|).value;
      && |out| == |permissions|
      && forall i :: 0 <= i < |permissions| ==>
           && (!NeedsPrompt(host, permissions[i]) ==> o.list[i].Immediate? && out[i] == Some(o.list[i].permission))
           && (NeedsPrompt(host, permissions[i]) ==> (out[i].Some? <==> permissions[i] !in permissions[..i]))
           && (NeedsPrompt(host, permissions[i]) && out[i].Some? ==>
                 && permissions[i] in o.unrequested
                 && forall j :: 0 <= j < |o.unrequested| && o.unrequested[j] == permissions[i] ==>
                      out[i].value == Outcome(grantResults, flags, o.unrequested, j))
  {
    var o := PlanOf(host, subjects, nextChannel, permissions);
    var r := DispatchFrom(Channels(o.subjects, delivered, log), grantResults, flags, o.unrequested, 0);
    AnsweredSlotByChannel(host, subjects, delivered, log, nextChannel, permissions, grantResults, flags);
    ImmediateSlotsPassThrough(host, subjects, nextChannel, permissions, r.delivered, r.log, |log|);
    forall i | 0 <= i < |permissions| && NeedsPrompt(host, permissions[i])
      ensures var out := Concat(o.list, r.delivered, r.log, |log|).value;
        && (out[i].Some? <==> permissions[i] !in permissions[..i])
        && (out[i].Some? ==>
              && permissions[i] in o.unrequested
              && forall j :: 0 <= j < |o.unrequested| && o.unrequested[j] == permissions[i] ==>
                   out[i].value == Outcome(grantResults, flags, o.unrequested, j))
    {
      if permissions[i] in permissions[..i] {
        var i' :| 0 <= i' < i && permissions[..i][i'] == permissions[i];
        AnsweredRepeatSlot(host, subjects, delivered, log, nextChannel, permissions, grantResults, flags, i', i);
      } else {
        AnsweredFirstSlot(host, subjects, delivered, log, nextChannel, permissions, grantResults, flags, i);
      }
    }
  }

  /** The two requests of `PendingAnswerBeforeSubscriptionIsLost`: "B" alone, then "A" and "B". */
  lemma LostAnswerPlans(host: Host)
    requires NeedsPrompt(host, "A") && NeedsPrompt(host, "B")
    ensures var first := PlanOf(host, map[], 0, ["B"]);
      && first == Plan([Await("B", 0)], ["B"], map["B" := 0], 1)
      && PlanOf(host, first.subjects, first.nextChannel, ["A", "B"]) ==
         Plan([Await("A", 1), Await("B", 0)], ["A"], map["B" := 0, "A" := 1], 2)
  {
    assert ["B"][..0] == [] && ["A", "B"][..1] == ["A"] && ["A"][..0] == [];
    assert PlanOf(host, map[], 0, []) == Plan([], [], map[], 0);
    assert PlanOf(host, map["B" := 0], 1, []) == Plan([], [], map["B" := 0], 1);
    assert PlanOf(host, map["B" := 0], 1, ["A"]) == Plan([Await("A", 1)], ["A"], map["B" := 0, "A" := 1], 2);
  }

  /** B's prompt is answered (denied, -1) before A's (granted). */
  lemma LostAnswerDispatch()
    ensures var afterB := DispatchFrom(Channels(map["B" := 0, "A" := 1], map[], []), [-1], [false], ["B"], 0);
      && afterB == Channels(map["A" := 1], map[0 := Permission("B", false, false)], [0])
      && DispatchFrom(afterB, [PERMISSION_GRANTED], [false], ["A"], 0) ==
         Channels(map[], map[0 := Permission("B", false, false), 1 := Permission("A", true, false)], [0, 1])
  {
    assert map["B" := 0, "A" := 1] - {"B"} == map["A" := 1];
    assert map["A" := 1] - {"A"} == map[];
  }

  /**
   * A request waiting on channel `a` and then on channel `b`, where `b`
   * published before `a`: the second slot subscribes after `b` completed and
   * contributes nothing.
   */
  lemma LaterSlotMissesEarlierChannel(a: ChannelId, b: ChannelId, pa: Permission, pb: Permission)
    requires a != b
    ensures var delivered := map[b := pb, a := pa];
      && LogMatches(delivered, [b, a])
      && Concat([Await("A", a), Await("B", b)], delivered, [b, a], 0) == Some([Some(pa), None])
  {
    var delivered := map[b := pb, a := pa];
    var log := [b, a];
    var tail := [Await("B", b)];
    var list := [Await("A", a), Await("B", b)];
    assert LogMatches(delivered, log);
    assert IndexOf(log, a) == 1 && IndexOf(log, b) == 0;
    assert tail[1..] == [] && list[1..] == tail;
    assert Concat([], delivered, log, 2) == Some([]);
    assert tail[0].Await? && tail[0].subject == b && b in delivered;
    assert Concat(tail, delivered, log, 2).Some?;
    var none: Option<Permission> := None;
    var r := Concat(tail, delivered, log, 2);
    assert |r.value| == 1 && r.value[0] == none;
    assert r.value == [none];
    var out := Concat(list, delivered, log, 0);
    assert out.value == [Some(pa)] + r.value;
    assert out.value == [Some(pa), none];
  }

  /**
   * A name already pending from an earlier request can give no value at all.
   * Request 1 asks for "B"; request 2 asks for "A" and "B", registering "A"
   * and reusing B's channel. If B's prompt is answered (denied) before A's,
   * B's channel publishes while request 2 is still subscribed to A's slot, so
   * request 2 receives only A's outcome and `ensure` yields [true].
   */
  lemma PendingAnswerBeforeSubscriptionIsLost(host: Host)
    requires NeedsPrompt(host, "A") && NeedsPrompt(host, "B")
    ensures var first := PlanOf(host, map[], 0, ["B"]);
            var second := PlanOf(host, first.subjects, first.nextChannel, ["A", "B"]);
      first.unrequested == ["B"] && second.unrequested == ["A"]
    ensures var first := PlanOf(host, map[], 0, ["B"]);
            var second := PlanOf(host, first.subjects, first.nextChannel, ["A", "B"]);
            var afterB := DispatchFrom(Channels(second.subjects, map[], []), [-1], [false], ["B"], 0);
            var afterA := DispatchFrom(afterB, [PERMISSION_GRANTED], [false], ["A"], 0);
      && 0 in afterA.delivered && afterA.delivered[0] == Permission("B", false, false)
      && LogMatches(afterA.delivered, afterA.log)
      && Concat(second.list, afterA.delivered, afterA.log, 0) == Some([Some(Permission("A", true, false)), None])
      && EnsureReduce(Emitted(Concat(second.list, afterA.delivered, afterA.log, 0).value)) == [true]
  {
    var pa, pb := Permission("A", true, false), Permission("B", false, false);
    var first := PlanOf(host, map[], 0, ["B"]);
    var second := PlanOf(host, first.subjects, first.nextChannel, ["A", "B"]);
    LostAnswerPlans(host);
    assert second.subjects == map["B" := 0, "A" := 1] && second.list == [Await("A", 1), Await("B", 0)];
    var afterB := DispatchFrom(Channels(second.subjects, map[], []), [-1], [false], ["B"], 0);
    var afterA := DispatchFrom(afterB, [PERMISSION_GRANTED], [false], ["A"], 0);
    LostAnswerDispatch();
    assert afterA == Channels(map[], map[0 := pb, 1 := pa], [0, 1]);
    LaterSlotMissesEarlierChannel(1, 0, pa, pb);
    var none: Option<Permission> := None;
    var out := Concat(second.list, afterA.delivered, afterA.log, 0);
    assert out == Some([Some(pa), none]);
    EmittedAppend([Some(pa)], [none]);
    assert out.value == [Some(pa)] + [none];
    assert Emitted(out.value) == [pa];
  }

  // ---- The trigger gate and the rationale query ----

  /**
   * `pending`: one trigger emission when every requested name already has an
   * entry (so waiting subscribers are re-attached), none otherwise.
   */
  function Pending(registered: set<string>, permissions: seq<string>): (emissions: nat)
    ensures emissions <= 1
    ensures emissions == 1 <==> forall i :: 0 <= i < |permissions| ==> permissions[i] in registered
  {
    if FirstOrNull(permissions, (p: string) => p !in registered).Some? then 0 else 1
  }

  /**
   * `oneOf`: a single trigger emission when there is no trigger stream, else
   * the trigger stream's emissions merged with the pending ones (their
   * interleaving is not modelled, only their number).
   */
  function OneOf(trigger: Option<nat>, pending: nat): (r: nat)
    ensures trigger.None? ==> r == 1
    ensures trigger.Some? ==> r == trigger.value + pending
  {
    match trigger
    case None => 1
    case Some(t) => t + pending
  }

  function ShouldShowRequestPermissionRationaleImplementation(host: Host, permissions: seq<string>): (r: bool)
    ensures r <==> forall i :: 0 <= i < |permissions| ==>
                     IsGranted(host, permissions[i]) || host.shouldShowRationale(permissions[i])
  {
    FirstOrNull(permissions, (p: string) => !IsGranted(host, p) && !host.shouldShowRationale(p)).None?
  }

  /**
   * The rationale query: false before Marshmallow; otherwise true iff every
   * name not yet granted would show a rationale (true for no names).
   */
  function ShouldShowRequestPermissionRationale(host: Host, permissions: seq<string>): (r: bool)
    ensures !host.isMarshmallow ==> !r
    ensures host.isMarshmallow ==>
              (r <==> forall i :: 0 <= i < |permissions| ==>
                        host.checkSelfPermission(permissions[i]) || host.shouldShowRationale(permissions[i]))
  {
    if !host.isMarshmallow then false
    else ShouldShowRequestPermissionRationaleImplementation(host, permissions)
  }

  /** The outputs of a series of runs of one request, and the fragment's registry, counter and prompt log after them. */
  datatype Runs = Runs(batches: seq<seq<Slot>>, subjects: map<string, ChannelId>, nextChannel: ChannelId,
                       prompts: seq<seq<string>>)

  /**
   * `count` runs of the request coordinator on the same names, one after
   * another with no answer in between: each run is `PlanOf` on the registry
   * the previous one left, and logs one prompt iff it registered a name.
   */
  function RunsOf(host: Host, subjects: map<string, ChannelId>, nextChannel: ChannelId, prompts: seq<seq<string>>,
                  permissions: seq<string>, count: nat): (r: Runs)
    ensures |r.batches| == count
    ensures forall e :: 0 <= e < count ==> |r.batches[e]| == |permissions|
  {
    if count == 0 then Runs([], subjects, nextChannel, prompts)
    else
      var prev := RunsOf(host, subjects, nextChannel, prompts, permissions, count - 1);
      var o := PlanOf(host, prev.subjects, prev.nextChannel, permissions);
      Runs(prev.batches + [o.list], o.subjects, o.nextChannel,
           prev.prompts + (if o.unrequested == [] then [] else [o.unrequested]))
  }

  /** Every run gives one slot per name, in input order. */
  lemma {:induction false} RunsNames(host: Host, subjects: map<string, ChannelId>, nextChannel: ChannelId,
                                     prompts: seq<seq<string>>, permissions: seq<string>, count: nat)
    ensures forall e, i :: 0 <= e < count && 0 <= i < |permissions| ==>
              SlotName(RunsOf(host, subjects, nextChannel, prompts, permissions, count).batches[e][i]) == permissions[i]
    decreases count
  {
    if count > 0 {
      var prev := RunsOf(host, subjects, nextChannel, prompts, permissions, count - 1);
      var o := PlanOf(host, prev.subjects, prev.nextChannel, permissions);
      var w := RunsOf(host, subjects, nextChannel, prompts, permissions, count);
      assert w.batches == prev.batches + [o.list];
      PlanShape(host, prev.subjects, prev.nextChannel, permissions);
      forall e, i | 0 <= e < count && 0 <= i < |permissions|
        ensures SlotName(w.batches[e][i]) == permissions[i]
      {
        if e < count - 1 {
          RunsNames(host, subjects, nextChannel, prompts, permissions, count - 1);
          assert w.batches[e] == prev.batches[e];
        } else {
          assert w.batches[e] == o.list;
          assert SlotName(o.list[i]) == permissions[i];
        }
      }
    }
  }

  /**
   * Every run after the first repeats the first one: it gives the same slots,
   * registers nothing and prompts for nothing.
   */
  lemma {:induction false} RunsRepeatFirst(host: Host, subjects: map<string, ChannelId>, nextChannel: ChannelId,
                                           prompts: seq<seq<string>>, permissions: seq<string>, count: nat)
    requires count >= 1
    ensures var first := RunsOf(host, subjects, nextChannel, prompts, permissions, 1);
            var w := RunsOf(host, subjects, nextChannel, prompts, permissions, count);
      && w.subjects == first.subjects && w.nextChannel == first.nextChannel && w.prompts == first.prompts
      && forall e :: 0 <= e < count ==> w.batches[e] == first.batches[0]
    decreases count
  {
    if count > 1 {
      var first := RunsOf(host, subjects, nextChannel, prompts, permissions, 1);
      var prev := RunsOf(host, subjects, nextChannel, prompts, permissions, count - 1);
      RunsRepeatFirst(host, subjects, nextChannel, prompts, permissions, count - 1);
      RepeatedRequestReusesPlan(host, subjects, nextChannel, permissions);
      assert RunsOf(host, subjects, nextChannel, prompts, permissions, 0) == Runs([], subjects, nextChannel, prompts);
      assert first.batches == [PlanOf(host, subjects, nextChannel, permissions).list];
    }
  }

  /** The error `request` raises for an empty list of names. */
  datatype RequestError = EmptyPermissions

  class RxPermissions {
    /** The fragment holding the registry (its lazy lookup is not modelled). */
    const fragment: PermissionsFragment

    constructor(fragment: PermissionsFragment)
      ensures this.fragment == fragment
    {
      this.fragment := fragment;
    }

    /**
     * Handles every name in order, registering a channel for each name that
     * needs a prompt and has none, then prompts once for the new names.
     */
    method RequestImplementation(host: Host, permissions: seq<string>) returns (list: seq<Slot>)
      requires fragment.Valid()
      modifies fragment
      ensures fragment.Valid()
      ensures var o := PlanOf(host, old(fragment.subjects), old(fragment.nextChannel), permissions);
        && list == o.list
        && fragment.subjects == o.subjects
        && fragment.nextChannel == o.nextChannel
        && fragment.prompts == old(fragment.prompts) + (if o.unrequested == [] then [] else [o.unrequested])
      ensures fragment.delivered == old(fragment.delivered) && fragment.log == old(fragment.log)
    {
      var unrequested: seq<string> := [];
      list := [];
      for i := 0 to |permissions|
        invariant Plan(list, unrequested, fragment.subjects, fragment.nextChannel) ==
                  PlanOf(host, old(fragment.subjects), old(fragment.nextChannel), permissions[..i])
        invariant fragment.delivered == old(fragment.delivered) && fragment.log == old(fragment.log)
        invariant fragment.prompts == old(fragment.prompts)
      {
        var permission := permissions[i];
        ghost var next := Step(host, Plan(list, unrequested, fragment.subjects, fragment.nextChannel), permission);
        assert PlanOf(host, old(fragment.subjects), old(fragment.nextChannel), permissions[..i + 1]) == next by {
          assert permissions[..i + 1][..i] == permissions[..i];
        }
        if IsGranted(host, permission) {
          list := list + [Immediate(Permission(permission, true, false))];
          continue;
        }
        if IsRevoked(host, permission) {
          list := list + [Immediate(Permission(permission, false, false))];
          continue;
        }
        var subject := fragment.GetSubjectByPermission(permission);
        if subject.None? {
          unrequested := unrequested + [permission];
          var created := fragment.CreateSubject();
          fragment.SetSubjectForPermission(permission, created);
          list := list + [Await(permission, created)];
        } else {
          list := list + [Await(permission, subject.value)];
        }
      }
      assert permissions[..|permissions|] == permissions;
      PlanKeepsInvariant(host, old(fragment.subjects), old(fragment.delivered), old(fragment.nextChannel), permissions);
      if unrequested != [] {
        fragment.RequestPermissions(unrequested);
      }
    }

    /**
     * `request`: rejects an empty list of names; otherwise runs the request
     * once per trigger emission, the emissions being the caller's trigger
     * merged with the pending gate evaluated when the request is made.
     */
    method Request(host: Host, trigger: Option<nat>, permissions: seq<string>) returns (r: Result<seq<seq<Slot>>, RequestError>)
      requires fragment.Valid()
      modifies fragment
      ensures fragment.Valid()
      ensures r.Failure? <==> |permissions| == 0
      ensures r.Failure? ==> r.error == EmptyPermissions && fragment.subjects == old(fragment.subjects) &&
                             fragment.nextChannel == old(fragment.nextChannel) && fragment.prompts == old(fragment.prompts)
      ensures r.Success? ==> |r.value| == OneOf(trigger, Pending(old(fragment.subjects).Keys, permissions))
      ensures r.Success? ==>
                var w := RunsOf(host, old(fragment.subjects), old(fragment.nextChannel), old(fragment.prompts), permissions,
                                OneOf(trigger, Pending(old(fragment.subjects).Keys, permissions)));
                r.value == w.batches && fragment.subjects == w.subjects && fragment.nextChannel == w.nextChannel &&
                fragment.prompts == w.prompts
      ensures r.Success? ==> forall e, i :: 0 <= e < |r.value| && 0 <= i < |permissions| ==>
                |r.value[e]| == |permissions| && SlotName(r.value[e][i]) == permissions[i]
      ensures fragment.delivered == old(fragment.delivered) && fragment.log == old(fragment.log)
    {
      if |permissions| == 0 {
        return Failure(EmptyPermissions);
      }
      var emissions := OneOf(trigger, Pending(fragment.subjects.Keys, permissions));
      var batches: seq<seq<Slot>> := [];
      for e := 0 to emissions
        invariant fragment.Valid() && fragment.delivered == old(fragment.delivered) && fragment.log == old(fragment.log)
        invariant |batches| == e
        invariant var w := RunsOf(host, old(fragment.subjects), old(fragment.nextChannel), old(fragment.prompts), permissions, e);
                  batches == w.batches && fragment.subjects == w.subjects && fragment.nextChannel == w.nextChannel &&
                  fragment.prompts == w.prompts
      {
        ghost var prev := RunsOf(host, old(fragment.subjects), old(fragment.nextChannel), old(fragment.prompts), permissions, e);
        var list := RequestImplementation(host, permissions);
        assert RunsOf(host, old(fragment.subjects), old(fragment.nextChannel), old(fragment.prompts), permissions, e + 1) ==
               Runs(prev.batches + [list], fragment.subjects, fragment.nextChannel, fragment.prompts);
        batches := batches + [list];
      }
      RunsNames(host, old(fragment.subjects), old(fragment.nextChannel), old(fragment.prompts), permissions, emissions);
      return Success(batches);
    }

    /** The public result entry point: dispatches a batch with every rationale flag false. */
    method OnRequestPermissionsResult(permissions: seq<string>, grantResults: seq<int>)
      requires fragment.Valid() && |grantResults| == |permissions|
      modifies fragment`subjects, fragment`delivered, fragment`log
      ensures fragment.Valid()
      ensures fragment.prompts == old(fragment.prompts) && fragment.nextChannel == old(fragment.nextChannel)
      ensures Channels(fragment.subjects, fragment.delivered, fragment.log) ==
              DispatchFrom(Channels(old(fragment.subjects), old(fragment.delivered), old(fragment.log)), grantResults,
                           seq(|permissions|, _ => false), permissions, 0)
    {
      fragment.OnRequestPermissionsResult(grantResults, seq(|permissions|, _ => false), permissions);
    }
  }
}
