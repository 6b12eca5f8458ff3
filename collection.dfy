/**
 * Project collection: the root group's projects, then the projects of every
 * subgroup in the recursive subgroup listing, visiting each subgroup id once
 * and skipping subgroups whose full path contains the exclusion pattern
 * (gitlab-protector.py:379-459).
 *
 * This module holds the specification of the walk; the walk itself is the
 * loop in GitLabProtector.ProcessSubgroups.
 */
module Collection {
  import opened Wrappers

  /** A project handle as listed by a group. */
  datatype Project = Project(pathWithNamespace: string)

  /** A subgroup stub from the listing: its id may be missing; a missing full path reads as "". */
  datatype Stub = Stub(id: Option<int>, fullPath: string)

  /** Projects gathered so far, and whether a fetch failed (which ends collection with exit 20). */
  datatype Collected = Collected(added: seq<Project>, failed: bool)

  /** `pat` occurs in `s` starting at offset `i`. */
  predicate OccursAt(pat: string, s: string, i: nat)
  {
    i + |pat| <= |s| && s[i..i + |pat|] == pat
  }

  /** Python's `pat in s` on strings, scanning `s` from the left. */
  function Contains(s: string, pat: string): bool
    decreases |s|
  {
    if |s| < |pat| then false
    else s[..|pat|] == pat || Contains(s[1..], pat)
  }

  /** `Contains` is substring containment: some offset holds `pat`. */
  lemma {:induction false} ContainsIffOccurs(s: string, pat: string)
    ensures Contains(s, pat) <==> exists i: nat :: OccursAt(pat, s, i)
    decreases |s|
  {
    if |s| < |pat| {
      forall i: nat ensures !OccursAt(pat, s, i) { }
    } else if s[..|pat|] == pat {
      assert OccursAt(pat, s, 0);
    } else {
      ContainsIffOccurs(s[1..], pat);
      forall i: nat ensures OccursAt(pat, s[1..], i) <==> OccursAt(pat, s, i + 1) {
        if i + 1 + |pat| <= |s| {
          assert s[1..][i..i + |pat|] == s[i + 1..i + 1 + |pat|];
        }
      }
      if Contains(s[1..], pat) {
        var i: nat :| OccursAt(pat, s[1..], i);
        assert OccursAt(pat, s, i + 1);
      }
      if exists i: nat :: OccursAt(pat, s, i) {
        var i: nat :| OccursAt(pat, s, i);
        assert i != 0;
        assert OccursAt(pat, s[1..], i - 1);
      }
    }
  }

  /**
   * `_is_excluded(path)`: no pattern (None or empty) excludes nothing;
   * otherwise a path is excluded when the pattern occurs in it.
   */
  function Excluded(exclude: Option<string>, path: string): (r: bool)
    ensures exclude.None? || exclude.value == "" ==> !r
    ensures exclude.Some? && exclude.value != "" ==> (r <==> exists i: nat :: OccursAt(exclude.value, path, i))
  {
    if exclude.Some? && exclude.value != "" then
      ContainsIffOccurs(path, exclude.value);
      Contains(path, exclude.value)
    else
      false
  }

  /**
   * The `while to_visit` loop of `_process_subgroups`, from queue `queue` with
   * the ids `visited` already seen: skip a stub with no id or a seen id; mark
   * the id seen; skip an excluded path; otherwise fetch the group (failing if
   * it cannot be fetched) and add its projects.
   */
  function Walk(queue: seq<Stub>, visited: set<int>, exclude: Option<string>, groups: map<int, seq<Project>>): Collected
    decreases |queue|
  {
    if queue == [] then Collected([], false)
    else
      var stub := queue[0];
      if stub.id.None? || stub.id.value in visited then Walk(queue[1..], visited, exclude, groups)
      else
        var id := stub.id.value;
        if Excluded(exclude, stub.fullPath) then Walk(queue[1..], visited + {id}, exclude, groups)
        else if id !in groups then Collected([], true)
        else
          var rest := Walk(queue[1..], visited + {id}, exclude, groups);
          Collected(groups[id] + rest.added, rest.failed)
  }

  /**
   * `_collect_projects`: the root group's projects, then the subgroup walk.
   * `rootProjects` is None when the root group cannot be fetched or listed;
   * `listing` is None when the subgroup listing fails.
   */
  function Collect(rootProjects: Option<seq<Project>>, listing: Option<seq<Stub>>,
                   groups: map<int, seq<Project>>, exclude: Option<string>): Collected
  {
    if rootProjects.None? then Collected([], true)
    else if listing.None? then Collected(rootProjects.value, true)
    else
      var w := Walk(listing.value, {}, exclude, groups);
      Collected(rootProjects.value + w.added, w.failed)
  }

  // ---- An independent description of the walk: filter the listing, then fetch ----

  /** The ids of the stubs in `stubs` that have one. */
  function IdsOf(stubs: seq<Stub>): set<int>
  {
    set i | 0 <= i < |stubs| && stubs[i].id.Some? :: stubs[i].id.value
  }

  /** Stub `i` has an id that no earlier stub of the listing has. */
  predicate FirstSeen(stubs: seq<Stub>, i: nat)
    requires i < |stubs|
  {
    stubs[i].id.Some? && forall j :: 0 <= j < i ==> stubs[j].id != stubs[i].id
  }

  /** Stub `i` is the first with its id and its path is not excluded: its group is fetched. */
  predicate Kept(stubs: seq<Stub>, i: nat, exclude: Option<string>)
    requires i < |stubs|
  {
    FirstSeen(stubs, i) && !Excluded(exclude, stubs[i].fullPath)
  }

  /** The ids of the kept stubs from index `k` on, in listing order. */
  function KeptIds(stubs: seq<Stub>, k: nat, exclude: Option<string>): seq<int>
    requires k <= |stubs|
    decreases |stubs| - k
  {
    if k == |stubs| then []
    else (if Kept(stubs, k, exclude) then [stubs[k].id.value] else []) + KeptIds(stubs, k + 1, exclude)
  }

  /** Fetch the groups `ids` in order, concatenating their projects; stop at the first that cannot be fetched. */
  function FetchAll(groups: map<int, seq<Project>>, ids: seq<int>): Collected
    decreases |ids|
  {
    if ids == [] then Collected([], false)
    else if ids[0] !in groups then Collected([], true)
    else
      var rest := FetchAll(groups, ids[1..]);
      Collected(groups[ids[0]] + rest.added, rest.failed)
  }

  /** Seen ids after the first `k + 1` stubs are those after `k` plus stub `k`'s id. */
  lemma IdsOfStep(stubs: seq<Stub>, k: nat)
    requires k < |stubs|
    ensures IdsOf(stubs[..k + 1]) == IdsOf(stubs[..k]) + (if stubs[k].id.Some? then {stubs[k].id.value} else {})
    ensures FirstSeen(stubs, k) <==> stubs[k].id.Some? && stubs[k].id.value !in IdsOf(stubs[..k])
  {
    var pre, pre1 := stubs[..k], stubs[..k + 1];
    assert forall i :: 0 <= i < k ==> pre1[i] == pre[i] == stubs[i];
    assert pre1[k] == stubs[k];
    if stubs[k].id.Some? && stubs[k].id.value in IdsOf(pre) {
      var j :| 0 <= j < k && pre[j].id.Some? && pre[j].id.value == stubs[k].id.value;
      assert stubs[j].id == stubs[k].id;
    }
  }

  /**
   * The loop's queue-and-visited-set walk equals filtering the listing (first
   * occurrence of each id, not excluded) and then fetching the kept groups.
   */
  lemma {:induction false} WalkIsFilterThenFetch(stubs: seq<Stub>, k: nat, exclude: Option<string>, groups: map<int, seq<Project>>)
    requires k <= |stubs|
    ensures Walk(stubs[k..], IdsOf(stubs[..k]), exclude, groups) == FetchAll(groups, KeptIds(stubs, k, exclude))
    decreases |stubs| - k
  {
    if k < |stubs| {
      IdsOfStep(stubs, k);
      WalkIsFilterThenFetch(stubs, k + 1, exclude, groups);
      assert stubs[k..][0] == stubs[k];
      assert stubs[k..][1..] == stubs[k + 1..];
      var stub := stubs[k];
      var seen := IdsOf(stubs[..k]);
      var walk := Walk(stubs[k..], seen, exclude, groups);
      var later := KeptIds(stubs, k + 1, exclude);
      if stub.id.None? {
        assert IdsOf(stubs[..k + 1]) == seen;
        assert walk == Walk(stubs[k + 1..], seen, exclude, groups);
        assert KeptIds(stubs, k, exclude) == later;
      } else if stub.id.value in seen {
        assert IdsOf(stubs[..k + 1]) == seen;
        assert walk == Walk(stubs[k + 1..], seen, exclude, groups);
        assert KeptIds(stubs, k, exclude) == later;
      } else {
        var id := stub.id.value;
        assert IdsOf(stubs[..k + 1]) == seen + {id};
        if Excluded(exclude, stub.fullPath) {
          assert walk == Walk(stubs[k + 1..], seen + {id}, exclude, groups);
          assert KeptIds(stubs, k, exclude) == later;
        } else {
          var ids := KeptIds(stubs, k, exclude);
          assert ids == [id] + later;
          assert ids[0] == id && ids[1..] == later;
          if id in groups {
            var rest := Walk(stubs[k + 1..], seen + {id}, exclude, groups);
            assert walk == Collected(groups[id] + rest.added, rest.failed);
          }
        }
      }
    } else {
      assert stubs[k..] == [];
    }
  }

  /** The ids fetched from index `k` on are exactly the ids of kept stubs at index `k` or later. */
  lemma {:induction false} KeptIdsMembers(stubs: seq<Stub>, k: nat, exclude: Option<string>, x: int)
    requires k <= |stubs|
    ensures x in KeptIds(stubs, k, exclude) <==>
              exists i :: k <= i < |stubs| && Kept(stubs, i, exclude) && stubs[i].id == Some(x)
    decreases |stubs| - k
  {
    if k < |stubs| {
      KeptIdsMembers(stubs, k + 1, exclude, x);
    }
  }

  /** No id is fetched twice, even when the listing repeats a subgroup. */
  lemma {:induction false} KeptIdsDistinct(stubs: seq<Stub>, k: nat, exclude: Option<string>)
    requires k <= |stubs|
    ensures var ids := KeptIds(stubs, k, exclude);
            forall a, b :: 0 <= a < b < |ids| ==> ids[a] != ids[b]
    decreases |stubs| - k
  {
    if k < |stubs| {
      KeptIdsDistinct(stubs, k + 1, exclude);
      if Kept(stubs, k, exclude) {
        var x := stubs[k].id.value;
        KeptIdsMembers(stubs, k + 1, exclude, x);
        var ids, later := KeptIds(stubs, k, exclude), KeptIds(stubs, k + 1, exclude);
        assert ids == [x] + later;
        forall a, b | 0 <= a < b < |ids| ensures ids[a] != ids[b] {
          assert ids[b] == later[b - 1];
          if a == 0 {
            assert ids[b] in later;
          } else {
            assert ids[a] == later[a - 1];
          }
        }
      } else {
        assert KeptIds(stubs, k, exclude) == KeptIds(stubs, k + 1, exclude);
      }
    }
  }

  /** Fetching a list of ids fails exactly when one of them cannot be fetched. */
  lemma {:induction false} FetchAllFails(groups: map<int, seq<Project>>, ids: seq<int>)
    ensures FetchAll(groups, ids).failed <==> exists i :: 0 <= i < |ids| && ids[i] !in groups
    decreases |ids|
  {
    if ids != [] {
      FetchAllFails(groups, ids[1..]);
      if exists i :: 0 <= i < |ids[1..]| && ids[1..][i] !in groups {
        var i :| 0 <= i < |ids[1..]| && ids[1..][i] !in groups;
        assert ids[i + 1] !in groups;
      }
      if exists i :: 0 <= i < |ids| && ids[i] !in groups {
        var i :| 0 <= i < |ids| && ids[i] !in groups;
        if i > 0 { assert ids[1..][i - 1] !in groups; }
      }
    }
  }

  /**
   * After a successful root fetch and listing, the collected projects are the
   * root's projects followed by those of the kept subgroups in listing order,
   * and collection fails exactly when some kept subgroup cannot be fetched.
   */
  lemma CollectIsRootThenKept(root: seq<Project>, listing: seq<Stub>, groups: map<int, seq<Project>>, exclude: Option<string>)
    ensures var ids := KeptIds(listing, 0, exclude);
            var f := FetchAll(groups, ids);
            && Collect(Some(root), Some(listing), groups, exclude) == Collected(root + f.added, f.failed)
            && (f.failed <==> exists i :: 0 <= i < |ids| && ids[i] !in groups)
            && (forall a, b :: 0 <= a < b < |ids| ==> ids[a] != ids[b])
  {
    assert listing[0..] == listing;
    assert IdsOf(listing[..0]) == {};
    WalkIsFilterThenFetch(listing, 0, exclude, groups);
    FetchAllFails(groups, KeptIds(listing, 0, exclude));
    KeptIdsDistinct(listing, 0, exclude);
  }

  /**
   * A subgroup whose first listing is excluded is never fetched, through that
   * stub or through any later duplicate of it.
   */
  lemma ExcludedSubgroupNeverFetched(listing: seq<Stub>, i: nat, exclude: Option<string>)
    requires i < |listing| && FirstSeen(listing, i) && Excluded(exclude, listing[i].fullPath)
    ensures listing[i].id.value !in KeptIds(listing, 0, exclude)
  {
    var x := listing[i].id.value;
    KeptIdsMembers(listing, 0, exclude, x);
    forall j | i < j < |listing| && listing[j].id == Some(x) ensures !FirstSeen(listing, j) {
      assert listing[i].id == listing[j].id;
    }
  }

  /** A subgroup whose first listing is not excluded is fetched. */
  lemma IncludedSubgroupFetched(listing: seq<Stub>, i: nat, exclude: Option<string>)
    requires i < |listing| && FirstSeen(listing, i) && !Excluded(exclude, listing[i].fullPath)
    ensures listing[i].id.value in KeptIds(listing, 0, exclude)
  {
    KeptIdsMembers(listing, 0, exclude, listing[i].id.value);
  }

  /**
   * The scenario of the repository's traversal test: one root project and one
   * subgroup stub (id 321) holding one project yield both projects, root first.
   */
  lemma RootThenSubgroupScenario(rootProject: Project, subProject: Project)
    ensures Collect(Some([rootProject]), Some([Stub(Some(321), "test-ns/sub")]), map[321 := [subProject]], None)
            == Collected([rootProject, subProject], false)
  {
    var listing := [Stub(Some(321), "test-ns/sub")];
    assert listing[1..] == [];
  }
}
