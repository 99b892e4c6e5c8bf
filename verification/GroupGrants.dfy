/** The loops behind a package grant in backend/internal/proxy/passthrough.go:
    EnsureAdminSubscriptionInGroup, mergeAllowedGroupIDs, validateAllowedGroupsUpdate. */
module GroupGrants {
  import opened Common
  import opened PackageGrant

  datatype AdminSubscription = AdminSubscription(id: int, group: GroupId, statusActive: bool)

  predicate Active(sub: AdminSubscription, group: GroupId) {
    sub.id > 0 && sub.group == group && sub.statusActive
  }

  /** The list the upstream answers with shows exactly the active groups. */
  ghost predicate Shows(listed: seq<AdminSubscription>, active: set<GroupId>) {
    forall g :: g in active <==> exists i :: 0 <= i < |listed| && Active(listed[i], g)
  }

  class Account {
    var up: Upstream

    constructor (up: Upstream)
      ensures this.up == up
    {
      this.up := up;
    }

    /** Extend an active subscription, otherwise assign one: the List and Call actions of
        the grant machine in one go. `listed` is None when the listing fails. */
    method EnsureAdminSubscriptionInGroup(
      pkg: Package, userID: int, group: GroupId, listed: Option<seq<AdminSubscription>>, w: Write)
      returns (ok: bool)
      requires listed.Some? ==> Shows(listed.value, up.active)
      modifies this
      ensures ok <==> userID > 0 && group > 0 && Validity(pkg) > 0 && listed.Some? && w.Acked?
      ensures up == (if userID > 0 && group > 0 && Validity(pkg) > 0 && listed.Some? && w.Lands()
                     then Perform(pkg, old(up), KeyOf(Subscription(group), group in old(up).active))
                     else old(up))
      ensures ok ==> pkg.Days? && pkg.days > 0
      // Extended exactly when the list shows a real, active subscription of this group.
      ensures ok ==>
                up == Perform(pkg, old(up),
                              if exists i :: 0 <= i < |listed.value| && listed.value[i].id > 0
                                             && listed.value[i].group == group && listed.value[i].statusActive
                              then ExtendKey(group) else AssignKey(group))
    {
      if userID <= 0 || group <= 0 || Validity(pkg) <= 0 || listed.None? {
        return false;
      }
      for i := 0 to |listed.value|
        invariant forall j | 0 <= j < i :: !Active(listed.value[j], group)
        invariant up == old(up)
      {
        var sub := listed.value[i];
        if sub.id <= 0 || sub.group != group {
          continue;
        }
        if sub.statusActive {
          assert Active(listed.value[i], group);
          if w.Lands() {
            up := Perform(pkg, up, ExtendKey(group));
          }
          return w.Acked?;
        }
      }
      if w.Lands() {
        up := Perform(pkg, up, AssignKey(group));
      }
      ok := w.Acked?;
    }
  }

  // ----- The allowed-groups list -----

  /** The positive ids of `ids`, each at its first occurrence. */
  function Dedup(ids: seq<GroupId>): (r: seq<GroupId>) {
    if ids == [] then []
    else
      var init, last := Dedup(ids[..|ids| - 1]), ids[|ids| - 1];
      if last > 0 && last !in init then init + [last] else init
  }

  /** One id after the other: an id is added at the end when it is positive and not there yet. */
  lemma DedupOneMore(ids: seq<GroupId>, id: GroupId)
    ensures Dedup([]) == []
    ensures Dedup(ids + [id]) == if id > 0 && id !in ids then Dedup(ids) + [id] else Dedup(ids)
  {
    DedupValid(ids);
    assert (ids + [id])[..|ids|] == ids;
  }

  method MergeAllowedGroupIDs(existing: seq<GroupId>, group: GroupId) returns (merged: seq<GroupId>)
    ensures merged == Dedup(existing + [group])
  {
    merged := [];
    var seen: set<GroupId> := {};
    for i := 0 to |existing|
      invariant merged == Dedup(existing[..i])
      invariant forall g :: g in seen <==> g in merged
    {
      assert existing[..i + 1][..i] == existing[..i];
      var id := existing[i];
      if id <= 0 || id in seen {
        continue;
      }
      seen := seen + {id};
      merged := merged + [id];
    }
    assert existing[..|existing|] == existing == (existing + [group])[..|existing|];
    if group > 0 && group !in seen {
      merged := merged + [group];
    }
  }

  /** validateAllowedGroupsUpdate: positive ids without duplicates. */
  predicate ValidGroups(ids: seq<GroupId>) {
    && (forall i | 0 <= i < |ids| :: ids[i] > 0)
    && (forall i, j | 0 <= i < j < |ids| :: ids[i] != ids[j])
  }

  method ValidateAllowedGroups(ids: seq<GroupId>) returns (ok: bool)
    ensures ok <==> ValidGroups(ids)
    ensures ok <==> (forall i | 0 <= i < |ids| :: ids[i] > 0 && ids[i] !in ids[..i])
  {
    var seen: set<GroupId> := {};
    for i := 0 to |ids|
      invariant ValidGroups(ids[..i])
      invariant forall g :: g in seen <==> g in ids[..i]
    {
      assert ids[..i + 1] == ids[..i] + [ids[i]];
      if ids[i] <= 0 || ids[i] in seen {
        assert !ValidGroups(ids[..i + 1]);
        return false;
      }
      seen := seen + {ids[i]};
    }
    assert ids[..|ids|] == ids;
    ok := true;
  }

  /** A merged list always passes the validation and holds exactly the positive ids. */
  lemma {:induction false} DedupValid(ids: seq<GroupId>)
    ensures ValidGroups(Dedup(ids))
    ensures forall g :: g in Dedup(ids) <==> g > 0 && g in ids
  {
    if ids != [] {
      DedupValid(ids[..|ids| - 1]);
      assert ids == ids[..|ids| - 1] + [ids[|ids| - 1]];
    }
  }

  lemma {:induction false} DedupOfValid(ids: seq<GroupId>)
    requires ValidGroups(ids)
    ensures Dedup(ids) == ids
  {
    if ids != [] {
      var init := ids[..|ids| - 1];
      DedupOfValid(init);
      assert ids == init + [ids[|ids| - 1]];
    }
  }

  /** GrantUserGroup skips its update exactly when the user's list is valid and already has
      the group; a second grant after a first is always skipped. */
  lemma GrantSkippedIff(existing: seq<GroupId>, group: GroupId)
    requires group > 0
    ensures Dedup(existing + [group]) == existing <==> ValidGroups(existing) && group in existing
    ensures Dedup(Dedup(existing + [group]) + [group]) == Dedup(existing + [group])
  {
    var merged := Dedup(existing + [group]);
    DedupValid(existing + [group]);
    assert (existing + [group])[..|existing|] == existing;
    if ValidGroups(existing) {
      DedupOfValid(existing);
    }
    DedupOfValid(merged);
    assert (merged + [group])[..|merged|] == merged;
    assert group in existing + [group];
  }
}
