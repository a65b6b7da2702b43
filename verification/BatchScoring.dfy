/**
 batchRecomputeForTenant of lead-scoring.service.ts: the leads of a tenant are read in id order,
 fifty at a time, each page starting behind the last lead of the one before.
 */
module BatchScoring {
  import opened Wrappers

  const PAGE_SIZE := 50

  // Lead ids are never the empty string; their order is all that matters here.
  datatype Lead = Lead(id: nat, tenantId: string)

  predicate UniqueIds(leads: seq<Lead>) {
    forall i, j :: 0 <= i < j < |leads| ==> leads[i].id != leads[j].id
  }

  predicate Increasing(ids: seq<nat>) {
    forall i, j :: 0 <= i < j < |ids| ==> ids[i] < ids[j]
  }

  function Insert(id: nat, ids: seq<nat>): (more: seq<nat>)
    requires Increasing(ids) && id !in ids
    ensures Increasing(more) && (forall other :: other in more <==> other == id || other in ids) && |more| == |ids| + 1
  {
    if ids == [] || id < ids[0] then
      Cons(id, ids);
      [id] + ids
    else
      assert ids == [ids[0]] + ids[1..];
      var rest := Insert(id, ids[1..]);
      Cons(ids[0], rest);
      [ids[0]] + rest
  }

  lemma Cons(id: nat, ids: seq<nat>)
    requires Increasing(ids) && forall other <- ids :: id < other
    ensures Increasing([id] + ids)
  {
    var all := [id] + ids;
    forall i, j | 0 <= i < j < |all| ensures all[i] < all[j] {
      assert all[j] == ids[j - 1] && ids[j - 1] in ids;
      assert i > 0 ==> all[i] == ids[i - 1];
    }
  }

  predicate Owns(leads: seq<Lead>, tenantId: string, id: nat) {
    exists i :: 0 <= i < |leads| && leads[i] == Lead(id, tenantId)
  }

  // The ids of the tenant's leads, in ascending order.
  function Ordered(leads: seq<Lead>, tenantId: string): (ids: seq<nat>)
    requires UniqueIds(leads)
    ensures Increasing(ids) && forall id :: id in ids <==> Owns(leads, tenantId, id)
  {
    if leads == [] then []
    else
      var last := leads[|leads| - 1];
      var others := leads[..|leads| - 1];
      assert forall i :: 0 <= i < |others| ==> others[i] == leads[i];
      var ids := Ordered(others, tenantId);
      assert forall id :: Owns(leads, tenantId, id) <==> Owns(others, tenantId, id) || last == Lead(id, tenantId);
      if last.tenantId != tenantId then ids
      else
        assert forall id :: Owns(others, tenantId, id) ==> id != last.id;
        Insert(last.id, ids)
  }

  function From(ids: seq<nat>, cursor: nat): seq<nat> {
    if ids == [] || ids[0] == cursor then ids else From(ids[1..], cursor)
  }

  // take, skip and cursor, applied to the ordered rows: the cursor row comes first and is skipped.
  function FindMany(ids: seq<nat>, cursor: Option<nat>): seq<nat> {
    var rest := match cursor
      case None => ids
      case Some(c) => var tail := From(ids, c); if tail == [] then [] else tail[1..];
    if |rest| <= PAGE_SIZE then rest else rest[..PAGE_SIZE]
  }

  lemma {:induction false} FromTheCursor(ids: seq<nat>, k: nat)
    requires Increasing(ids) && k < |ids|
    ensures From(ids, ids[k]) == ids[k..]
  {
    if k > 0 {
      FromTheCursor(ids[1..], k - 1);
    }
  }

  // The page behind the first k leads.
  lemma NextPage(ids: seq<nat>, k: nat)
    requires Increasing(ids) && k <= |ids|
    ensures FindMany(ids, if k == 0 then None else Some(ids[k - 1]))
         == ids[k..if k + 50 < |ids| then k + 50 else |ids|]
  {
    if k > 0 {
      FromTheCursor(ids, k - 1);
    }
  }

  // The position of the first lead whose scoring throws.
  function FirstFaulty(ids: seq<nat>, faulty: set<nat>): (k: nat)
    ensures k <= |ids| && (forall i :: 0 <= i < k ==> ids[i] !in faulty) && (k < |ids| ==> ids[k] in faulty)
  {
    if ids == [] || ids[0] in faulty then 0
    else
      assert forall i :: 1 <= i < |ids| ==> ids[i] == ids[1..][i - 1];
      FirstFaulty(ids[1..], faulty) + 1
  }

  // The page a lead is on begins at a multiple of fifty and ends at the next, or at the end of the list.
  function PageStart(k: nat): nat {
    k / 50 * 50
  }

  function PageEnd(k: nat, n: nat): nat
    requires k <= n
  {
    if PageStart(k) + 50 < n then PageStart(k) + 50 else n
  }

  lemma SamePage(start: nat, k: nat, n: nat)
    requires PageStart(start) == start && start <= k < start + PAGE_SIZE && k <= n
    ensures PageStart(k) == start
    ensures PageEnd(k, n) == if start + PAGE_SIZE < n then start + PAGE_SIZE else n
  {
  }

  lemma PagesBegin(k: nat)
    ensures PageStart(0) == 0
    ensures PageStart(k) == k ==> PageStart(k + PAGE_SIZE) == k + PAGE_SIZE
  {
  }

  function Spared(ids: seq<nat>, faulty: set<nat>): seq<nat> {
    if ids == [] then []
    else if ids[0] in faulty then Spared(ids[1..], faulty)
    else [ids[0]] + Spared(ids[1..], faulty)
  }

  lemma {:induction false} SparedAppend(left: seq<nat>, right: seq<nat>, faulty: set<nat>)
    ensures Spared(left + right, faulty) == Spared(left, faulty) + Spared(right, faulty)
  {
    if left == [] {
      assert left + right == right;
    } else {
      assert (left + right)[1..] == left[1..] + right;
      SparedAppend(left[1..], right, faulty);
    }
  }

  lemma {:induction false} AllSpared(ids: seq<nat>, faulty: set<nat>)
    requires forall i :: 0 <= i < |ids| ==> ids[i] !in faulty
    ensures Spared(ids, faulty) == ids
  {
    if ids != [] {
      AllSpared(ids[1..], faulty);
    }
  }

  // A page that starts before the first faulty lead: what scoring it adds, and when it throws.
  lemma OnePage(ids: seq<nat>, start: nat, page: seq<nat>, faulty: set<nat>)
    requires start <= FirstFaulty(ids, faulty) && page != [] && start + |page| <= |ids|
    requires page == ids[start..start + |page|]
    ensures ids[..start] + page == ids[..start + |page|] && page[|page| - 1] == ids[start + |page| - 1]
    ensures Spared(ids[..start + |page|], faulty) == ids[..start] + Spared(page, faulty)
    ensures (exists i :: 0 <= i < |page| && page[i] in faulty) <==> FirstFaulty(ids, faulty) < start + |page|
    ensures FirstFaulty(ids, faulty) >= start + |page| ==> Spared(page, faulty) == page
  {
    hide Spared, FirstFaulty;
    assert ids[..start] + page == ids[..start + |page|];
    AllSpared(ids[..start], faulty);
    SparedAppend(ids[..start], page, faulty);
    FaultyPage(ids, start, page, faulty);
    if FirstFaulty(ids, faulty) >= start + |page| {
      AllSpared(page, faulty);
    }
  }

  lemma FaultyPage(ids: seq<nat>, start: nat, page: seq<nat>, faulty: set<nat>)
    requires start <= FirstFaulty(ids, faulty) && start + |page| <= |ids| && page == ids[start..start + |page|]
    ensures (exists i :: 0 <= i < |page| && page[i] in faulty) <==> FirstFaulty(ids, faulty) < start + |page|
  {
    hide FirstFaulty;
    var k := FirstFaulty(ids, faulty);
    assert forall i :: 0 <= i < |page| ==> page[i] == ids[start + i];
    if k < start + |page| {
      assert page[k - start] in faulty;
    }
  }

  class LeadScoringService {
    var leads: seq<Lead>
    var scored: seq<nat>

    constructor (table: seq<Lead>)
      ensures leads == table && scored == []
    {
      leads, scored := table, [];
    }

    // The leads of a page are scored side by side; when one throws, the others of its page are scored all the same.
    method ScorePage(page: seq<nat>, faulty: set<nat>) returns (threw: bool)
      modifies this`scored
      ensures scored == old(scored) + Spared(page, faulty)
      ensures threw <==> exists i :: 0 <= i < |page| && page[i] in faulty
    {
      threw := false;
      for i := 0 to |page|
        invariant scored == old(scored) + Spared(page[..i], faulty)
        invariant threw <==> exists j :: 0 <= j < i && page[j] in faulty
      {
        assert page[..i + 1] == page[..i] + [page[i]];
        SparedAppend(page[..i], [page[i]], faulty);
        if page[i] in faulty {
          threw := true;
        } else {
          scored := scored + [page[i]];
        }
      }
      assert page[..|page|] == page;
    }

    // Without a lead whose scoring throws, every lead of the tenant is scored, once, in the order of the ids, and no
    // other lead is. Otherwise the call ends with the page of the first such lead, and throws.
    method BatchRecomputeForTenant(tenantId: string, faulty: set<nat>) returns (processed: nat, threw: bool)
      requires UniqueIds(leads)
      modifies this`scored
      ensures var ids := Ordered(leads, tenantId);
        var k := FirstFaulty(ids, faulty);
        if k == |ids| then !threw && processed == |ids| && scored == old(scored) + ids
        else threw && processed == PageStart(k) && scored == old(scored) + Spared(ids[..PageEnd(k, |ids|)], faulty)
    {
      hide FindMany, Ordered, Increasing, FirstFaulty, Spared, UniqueIds, PageStart, PageEnd, Owns;
      ghost var ids := Ordered(leads, tenantId);
      ghost var k := FirstFaulty(ids, faulty);
      var cursor: Option<nat> := None;
      var hasMore := true;
      processed, threw := 0, false;
      assert ids[..0] == [];
      PagesBegin(0);
      while hasMore
        invariant processed <= k && scored == old(scored) + ids[..processed]
        invariant PageStart(processed) == processed || processed == |ids|
        invariant cursor == if processed == 0 then None else Some(ids[processed - 1])
        invariant !hasMore ==> processed == |ids|
        invariant !threw
        decreases hasMore, |ids| - processed
      {
        NextPage(ids, processed);
        var page := FindMany(Ordered(leads, tenantId), cursor);
        if page == [] {
          hasMore := false;
          continue;
        }
        OnePage(ids, processed, page, faulty);
        PagesBegin(processed);
        threw := ScorePage(page, faulty);
        if threw {
          SamePage(processed, k, |ids|);
          return;
        }
        processed := processed + |page|;
        cursor := Some(page[|page| - 1]);
      }
      assert ids[..|ids|] == ids;
    }
  }
}
