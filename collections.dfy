/**
 * The backend's collection routes over an in-memory store: a map from
 * collection id to name, and the company/collection association table in
 * row order. A transaction is modelled by working on a copy of the table and
 * assigning it back on commit; a rollback drops the copy.
 */
module Collections {
  import opened Shared
  import opened Partition

  /** `move_all` re-points the ids to move this many at a time. */
  const MoveAllBatchSize := 1000

  /** A row of the association table: company `companyId` belongs to collection `collectionId`. */
  datatype Association = Association(companyId: CompanyId, collectionId: CollectionId)

  /** Why a listing request fails with a server error. */
  datatype ListingError =
    | CollectionNotFound   // the collection lookup returns nothing and its name is read anyway
    | MultipleLikedLists   // `.scalar()` finds more than one collection named like the liked list

  /** The response body of a listing: one page of member ids and the size of the whole filtered listing. */
  datatype CollectionPage = CollectionPage(id: CollectionId, collectionName: string, companyIds: seq<CompanyId>, total: nat)

  datatype Listing = Listed(page: CollectionPage) | ListingFailed(error: ListingError)

  /** Why a move request fails; every failure is answered with status 500. */
  datatype MoveError = SourceNotFound | DestinationNotFound | DatabaseError

  datatype MoveResponse = MovedCount(count: nat) | MoveFailed(status: nat, error: MoveError)

  /** The company ids of the rows of collection `cid`, in table order. */
  function MemberIds(rows: seq<Association>, cid: CollectionId): seq<CompanyId>
  {
    if |rows| == 0 then []
    else
      var last := rows[|rows| - 1];
      MemberIds(rows[..|rows| - 1], cid) + (if last.collectionId == cid then [last.companyId] else [])
  }

  /** `ids` without the ones in `excluded`, in order. */
  function Without(ids: seq<CompanyId>, excluded: set<CompanyId>): seq<CompanyId>
  {
    if |ids| == 0 then []
    else
      var last := ids[|ids| - 1];
      Without(ids[..|ids| - 1], excluded) + (if last in excluded then [] else [last])
  }

  /** The ids of the collections named like the liked list. */
  function LikedIds(names: map<CollectionId, string>): set<CollectionId>
  {
    set cid | cid in names && names[cid] == LikedListName
  }

  /** The companies that belong to a collection named like the liked list. */
  function LikedMembers(names: map<CollectionId, string>, rows: seq<Association>): set<CompanyId>
  {
    set a | a in rows && a.collectionId in LikedIds(names) :: a.companyId
  }

  /** The filtered listing of `cid`: all members for the liked list, the members not also liked for any other collection. */
  function VisibleIds(names: map<CollectionId, string>, rows: seq<Association>, cid: CollectionId): seq<CompanyId>
    requires cid in names
  {
    if names[cid] == LikedListName then MemberIds(rows, cid)
    else Without(MemberIds(rows, cid), LikedMembers(names, rows))
  }

  /**
   * `get_company_collection_by_id`: filter, count, then slice
   * `[offset, offset + limit)`. The liked-list lookup runs for every request,
   * so two liked lists make every listing fail.
   */
  function GetCompanyCollectionById(names: map<CollectionId, string>, rows: seq<Association>,
                                    cid: CollectionId, offset: nat, limit: nat): (r: Listing)
    ensures r.Listed? <==> cid in names && |LikedIds(names)| <= 1
    ensures cid !in names ==> r == ListingFailed(CollectionNotFound)
    ensures r.Listed? ==>
              && r.page.id == cid && r.page.collectionName == names[cid]
              && r.page.total == |VisibleIds(names, rows, cid)|
              && |r.page.companyIds| == Min(limit, Max(0, r.page.total - offset))
              && forall k :: 0 <= k < |r.page.companyIds| ==>
                   r.page.companyIds[k] == VisibleIds(names, rows, cid)[offset + k]
  {
    if cid !in names then ListingFailed(CollectionNotFound)
    else if |LikedIds(names)| > 1 then ListingFailed(MultipleLikedLists)
    else
      var visible := VisibleIds(names, rows, cid);
      var total := |visible|;
      Listed(CollectionPage(cid, names[cid], visible[Min(offset, total)..Min(offset + limit, total)], total))
  }

  /** The total count does not depend on the page requested. */
  lemma TotalIgnoresWindow(names: map<CollectionId, string>, rows: seq<Association>, cid: CollectionId,
                           offset1: nat, limit1: nat, offset2: nat, limit2: nat)
    requires GetCompanyCollectionById(names, rows, cid, offset1, limit1).Listed?
    ensures GetCompanyCollectionById(names, rows, cid, offset2, limit2).Listed?
    ensures GetCompanyCollectionById(names, rows, cid, offset1, limit1).page.total
            == GetCompanyCollectionById(names, rows, cid, offset2, limit2).page.total
  {
  }

  lemma {:induction false} MemberIdsIn(rows: seq<Association>, cid: CollectionId)
    ensures forall x :: x in MemberIds(rows, cid) <==> Association(x, cid) in rows
    decreases |rows|
  {
    if |rows| > 0 {
      MemberIdsIn(rows[..|rows| - 1], cid);
      assert rows == rows[..|rows| - 1] + [rows[|rows| - 1]];
    }
  }

  lemma {:induction false} WithoutIn(ids: seq<CompanyId>, excluded: set<CompanyId>)
    ensures forall x :: x in Without(ids, excluded) <==> x in ids && x !in excluded
    decreases |ids|
  {
    if |ids| > 0 {
      WithoutIn(ids[..|ids| - 1], excluded);
      assert ids == ids[..|ids| - 1] + [ids[|ids| - 1]];
    }
  }

  /**
   * Listing the liked list returns all of its members; listing any other
   * collection returns exactly its members that are not in a liked list.
   */
  lemma ListingExcludesLiked(names: map<CollectionId, string>, rows: seq<Association>, cid: CollectionId)
    requires cid in names
    ensures names[cid] == LikedListName ==> VisibleIds(names, rows, cid) == MemberIds(rows, cid)
    ensures names[cid] != LikedListName ==>
              forall x :: x in VisibleIds(names, rows, cid) <==>
                Association(x, cid) in rows
                && !(exists l :: l in names && names[l] == LikedListName && Association(x, l) in rows)
  {
    MemberIdsIn(rows, cid);
    WithoutIn(MemberIds(rows, cid), LikedMembers(names, rows));
    forall x ensures x in LikedMembers(names, rows) <==>
                     exists l :: l in names && names[l] == LikedListName && Association(x, l) in rows
    {
      if x in LikedMembers(names, rows) {
        var a :| a in rows && a.collectionId in LikedIds(names) && a.companyId == x;
        assert a == Association(x, a.collectionId);
      }
    }
  }

  /** The rows `move` re-points: those of the source whose company was asked for. */
  predicate Selected(a: Association, source: CollectionId, ids: seq<CompanyId>)
  {
    a.collectionId == source && a.companyId in ids
  }

  function Step(a: Association, source: CollectionId, destination: CollectionId, ids: seq<CompanyId>): Association
  {
    if Selected(a, source, ids) then Association(a.companyId, destination) else a
  }

  /** The table after re-pointing the selected rows to `destination`, row by row. */
  function Repointed(rows: seq<Association>, source: CollectionId, destination: CollectionId,
                     ids: seq<CompanyId>): (r: seq<Association>)
    ensures |r| == |rows|
  {
    seq(|rows|, k requires 0 <= k < |rows| => Step(rows[k], source, destination, ids))
  }

  /** The number of selected rows. */
  function MatchCount(rows: seq<Association>, source: CollectionId, ids: seq<CompanyId>): nat
  {
    if |rows| == 0 then 0
    else MatchCount(rows[..|rows| - 1], source, ids) + (if Selected(rows[|rows| - 1], source, ids) then 1 else 0)
  }

  /**
   * The loop `for association in associations: association.collection_id =
   * destination_id` over the selected rows, updating a copy of the table in
   * place and counting the rows it touches.
   */
  method RepointRows(rows: seq<Association>, source: CollectionId, destination: CollectionId, ids: seq<CompanyId>)
    returns (updated: seq<Association>, matched: nat)
    ensures updated == Repointed(rows, source, destination, ids)
    ensures matched == MatchCount(rows, source, ids)
  {
    updated, matched := rows, 0;
    for i := 0 to |rows|
      invariant |updated| == |rows|
      invariant forall k :: 0 <= k < i ==> updated[k] == Step(rows[k], source, destination, ids)
      invariant forall k :: i <= k < |rows| ==> updated[k] == rows[k]
      invariant matched == MatchCount(rows[..i], source, ids)
    {
      assert rows[..i + 1][..i] == rows[..i];
      if Selected(rows[i], source, ids) {
        updated := updated[i := Association(rows[i].companyId, destination)];
        matched := matched + 1;
      }
    }
    assert rows[..|rows|] == rows;
  }

  /** Re-pointing in two batches is re-pointing their concatenation once. */
  lemma RepointedTwice(rows: seq<Association>, source: CollectionId, destination: CollectionId,
                       first: seq<CompanyId>, second: seq<CompanyId>)
    ensures Repointed(Repointed(rows, source, destination, first), source, destination, second)
            == Repointed(rows, source, destination, first + second)
  {
    var once := Repointed(rows, source, destination, first);
    var twice := Repointed(once, source, destination, second);
    var joint := Repointed(rows, source, destination, first + second);
    forall k | 0 <= k < |rows| ensures twice[k] == joint[k] {
      assert once[k] == Step(rows[k], source, destination, first);
    }
  }

  /**
   * With distinct source and destination, `move` takes the requested
   * companies out of the source and adds them to the destination; no other
   * membership changes. Requested ids that are not in the source are skipped.
   */
  lemma MoveMembership(rows: seq<Association>, source: CollectionId, destination: CollectionId, ids: seq<CompanyId>)
    requires source != destination
    ensures forall x :: x in MemberIds(Repointed(rows, source, destination, ids), source)
                        <==> x in MemberIds(rows, source) && x !in ids
    ensures forall x :: x in MemberIds(Repointed(rows, source, destination, ids), destination)
                        <==> x in MemberIds(rows, destination) || (x in MemberIds(rows, source) && x in ids)
    ensures forall c :: c != source && c != destination ==>
              MemberIds(Repointed(rows, source, destination, ids), c) == MemberIds(rows, c)
  {
    var after := Repointed(rows, source, destination, ids);
    MemberIdsIn(rows, source);
    MemberIdsIn(rows, destination);
    MemberIdsIn(after, source);
    MemberIdsIn(after, destination);
    forall x ensures Association(x, source) in after <==> Association(x, source) in rows && x !in ids {
      if Association(x, source) in after {
        var k :| 0 <= k < |after| && after[k] == Association(x, source);
        assert rows[k] == Association(x, source);
      }
      if Association(x, source) in rows && x !in ids {
        var k :| 0 <= k < |rows| && rows[k] == Association(x, source);
        assert after[k] == rows[k];
      }
    }
    forall x ensures Association(x, destination) in after <==>
                     Association(x, destination) in rows || (Association(x, source) in rows && x in ids)
    {
      if Association(x, destination) in after {
        var k :| 0 <= k < |after| && after[k] == Association(x, destination);
        assert rows[k] == Association(x, destination) || rows[k] == Association(x, source);
      }
      if Association(x, destination) in rows {
        var k :| 0 <= k < |rows| && rows[k] == Association(x, destination);
        assert after[k] == rows[k];
      }
      if Association(x, source) in rows && x in ids {
        var k :| 0 <= k < |rows| && rows[k] == Association(x, source);
        assert after[k] == Association(x, destination);
      }
    }
    forall c | c != source && c != destination
      ensures MemberIds(after, c) == MemberIds(rows, c)
    {
      OtherCollectionsUnchanged(rows, source, destination, ids, c);
    }
  }

  lemma {:induction false} OtherCollectionsUnchanged(rows: seq<Association>, source: CollectionId,
                                                     destination: CollectionId, ids: seq<CompanyId>, c: CollectionId)
    requires c != source && c != destination
    ensures MemberIds(Repointed(rows, source, destination, ids), c) == MemberIds(rows, c)
    decreases |rows|
  {
    if |rows| > 0 {
      var n := |rows| - 1;
      var after := Repointed(rows, source, destination, ids);
      assert after[..n] == Repointed(rows[..n], source, destination, ids);
      OtherCollectionsUnchanged(rows[..n], source, destination, ids, c);
    }
  }

  /**
   * The count `move` reports is the number of rows that left the source and
   * the number that arrived in the destination.
   */
  lemma {:induction false} MoveCount(rows: seq<Association>, source: CollectionId, destination: CollectionId,
                                     ids: seq<CompanyId>)
    requires source != destination
    ensures MatchCount(rows, source, ids) + |MemberIds(Repointed(rows, source, destination, ids), source)|
            == |MemberIds(rows, source)|
    ensures |MemberIds(Repointed(rows, source, destination, ids), destination)|
            == |MemberIds(rows, destination)| + MatchCount(rows, source, ids)
    decreases |rows|
  {
    if |rows| > 0 {
      var n := |rows| - 1;
      var after := Repointed(rows, source, destination, ids);
      assert after[..n] == Repointed(rows[..n], source, destination, ids);
      MoveCount(rows[..n], source, destination, ids);
    }
  }

  /**
   * `move` has no source-versus-destination check: with equal collections the
   * table is left as it was, yet every selected row is counted as moved.
   */
  lemma {:induction false} MoveOntoItself(rows: seq<Association>, source: CollectionId, ids: seq<CompanyId>)
    ensures Repointed(rows, source, source, ids) == rows
    ensures (exists k :: 0 <= k < |rows| && Selected(rows[k], source, ids)) ==> MatchCount(rows, source, ids) > 0
    decreases |rows|
  {
    var after := Repointed(rows, source, source, ids);
    forall k | 0 <= k < |rows| ensures after[k] == rows[k] { }
    if |rows| > 0 {
      var n := |rows| - 1;
      MoveOntoItself(rows[..n], source, ids);
      if exists k :: 0 <= k < |rows| && Selected(rows[k], source, ids) {
        var k :| 0 <= k < |rows| && Selected(rows[k], source, ids);
        if k < n {
          assert rows[..n][k] == rows[k];
        }
      }
    }
  }

  /** The ids `move_all` moves: source members not already in the destination, in source order. */
  function ToMove(rows: seq<Association>, source: CollectionId, destination: CollectionId): seq<CompanyId>
  {
    Without(MemberIds(rows, source), set x | x in MemberIds(rows, destination))
  }

  /**
   * After `move_all`, a source row is re-pointed exactly when its company was
   * not already in the destination; a company in both keeps its source row.
   * With distinct collections, every source member is then in the destination.
   */
  lemma MoveAllEffect(rows: seq<Association>, source: CollectionId, destination: CollectionId)
    ensures forall x :: x in ToMove(rows, source, destination) <==>
              Association(x, source) in rows && Association(x, destination) !in rows
    ensures forall k :: 0 <= k < |rows| && rows[k].collectionId == source ==>
              Repointed(rows, source, destination, ToMove(rows, source, destination))[k]
              == if Association(rows[k].companyId, destination) in rows then rows[k]
                 else Association(rows[k].companyId, destination)
    ensures source != destination ==>
              forall x :: x in MemberIds(rows, source) ==>
                x in MemberIds(Repointed(rows, source, destination, ToMove(rows, source, destination)), destination)
  {
    var toMove := ToMove(rows, source, destination);
    MemberIdsIn(rows, source);
    MemberIdsIn(rows, destination);
    WithoutIn(MemberIds(rows, source), set x | x in MemberIds(rows, destination));
    forall k | 0 <= k < |rows| && rows[k].collectionId == source
      ensures Association(rows[k].companyId, source) in rows
    {
      assert rows[k] == Association(rows[k].companyId, source);
    }
    if source != destination {
      MoveMembership(rows, source, destination, toMove);
    }
  }

  /**
   * The batch loop of `move_all_companies`: re-point `toMove` 1000 ids at a
   * time on a staged copy of the rows. A fault while processing batch
   * `faultAtBatch` stops the loop; the caller then drops the staged rows.
   */
  method StageMoveAll(rows: seq<Association>, source: CollectionId, destination: CollectionId,
                      toMove: seq<CompanyId>, faultAtBatch: Option<nat>)
    returns (failed: bool, staged: seq<Association>, ghost batches: seq<seq<CompanyId>>)
    ensures failed <==> faultAtBatch.Some? && faultAtBatch.value < |Chunks(toMove, MoveAllBatchSize)|
    ensures !failed ==> staged == Repointed(rows, source, destination, toMove)
                        && batches == Chunks(toMove, MoveAllBatchSize)
  {
    staged, batches := rows, [];
    var i, b := 0, 0;
    while i < |toMove|
      invariant 0 <= i
      invariant staged == Repointed(rows, source, destination, toMove[..Min(i, |toMove|)])
      invariant batches + Chunks(toMove[Min(i, |toMove|)..], MoveAllBatchSize) == Chunks(toMove, MoveAllBatchSize)
      invariant b == |batches|
      invariant faultAtBatch.Some? ==> faultAtBatch.value >= b
    {
      ChunksFrom(toMove, MoveAllBatchSize, i);
      if faultAtBatch == Some(b) {
        assert |Chunks(toMove[i..], MoveAllBatchSize)| >= 1;
        return true, staged, batches;
      }
      var j := Min(i + MoveAllBatchSize, |toMove|);
      var batch := toMove[i..j];
      var updated, _ := RepointRows(staged, source, destination, batch);
      RepointedTwice(rows, source, destination, toMove[..i], batch);
      assert toMove[..i] + batch == toMove[..j];
      staged := updated;
      batches := batches + [batch];
      i, b := i + MoveAllBatchSize, b + 1;
    }
    assert toMove[Min(i, |toMove|)..] == [];
    assert toMove[..Min(i, |toMove|)] == toMove;
    failed := false;
  }

  class Store {
    var names: map<CollectionId, string>
    var associations: seq<Association>

    constructor (names0: map<CollectionId, string>, associations0: seq<Association>)
      ensures names == names0 && associations == associations0
    {
      names, associations := names0, associations0;
    }

    /**
     * `move_companies`: re-point the source rows of the requested companies
     * and report how many rows matched. A missing collection or a database
     * fault rolls back and is answered with status 500 (the 404 raised for a
     * missing collection is caught by the generic handler).
     */
    method MoveCompanies(sourceId: CollectionId, destinationId: CollectionId, companyIds: seq<CompanyId>, dbFault: bool)
      returns (r: MoveResponse)
      modifies this
      ensures names == old(names)
      ensures sourceId !in names ==> r == MoveFailed(500, SourceNotFound) && associations == old(associations)
      ensures sourceId in names && destinationId !in names ==>
                r == MoveFailed(500, DestinationNotFound) && associations == old(associations)
      ensures sourceId in names && destinationId in names && dbFault ==>
                r == MoveFailed(500, DatabaseError) && associations == old(associations)
      ensures sourceId in names && destinationId in names && !dbFault ==>
                && r == MovedCount(MatchCount(old(associations), sourceId, companyIds))
                && associations == Repointed(old(associations), sourceId, destinationId, companyIds)
    {
      if sourceId !in names {
        return MoveFailed(500, SourceNotFound);
      }
      if destinationId !in names {
        return MoveFailed(500, DestinationNotFound);
      }
      var updated, matched := RepointRows(associations, sourceId, destinationId, companyIds);
      if dbFault {
        // rollback: the staged rows are dropped
        return MoveFailed(500, DatabaseError);
      }
      associations := updated;
      r := MovedCount(matched);
    }

    /**
     * `move_all_companies`: compute the source members not already in the
     * destination, re-point them 1000 at a time, and commit once. A fault
     * while processing batch `faultAtBatch` rolls back every batch before it.
     */
    method MoveAllCompanies(sourceId: CollectionId, destinationId: CollectionId, faultAtBatch: Option<nat>)
      returns (r: MoveResponse, ghost batches: seq<seq<CompanyId>>)
      modifies this
      ensures names == old(names)
      ensures sourceId !in names ==> r == MoveFailed(500, SourceNotFound) && associations == old(associations)
      ensures sourceId in names && destinationId !in names ==>
                r == MoveFailed(500, DestinationNotFound) && associations == old(associations)
      ensures sourceId in names && destinationId in names ==>
                var toMove := ToMove(old(associations), sourceId, destinationId);
                var planned := Chunks(toMove, MoveAllBatchSize);
                if faultAtBatch.Some? && faultAtBatch.value < |planned| then
                  r == MoveFailed(500, DatabaseError) && associations == old(associations)
                else
                  && r == MovedCount(|toMove|)
                  && batches == planned
                  && associations == Repointed(old(associations), sourceId, destinationId, toMove)
    {
      batches := [];
      if sourceId !in names {
        return MoveFailed(500, SourceNotFound), batches;
      }
      if destinationId !in names {
        return MoveFailed(500, DestinationNotFound), batches;
      }
      var companyIds := MemberIds(associations, sourceId);
      var existingIds := set x | x in MemberIds(associations, destinationId);
      var toMove := Without(companyIds, existingIds);
      var failed, staged;
      failed, staged, batches := StageMoveAll(associations, sourceId, destinationId, toMove, faultAtBatch);
      if failed {
        // rollback: every staged batch is dropped
        return MoveFailed(500, DatabaseError), batches;
      }
      associations := staged;
      r := MovedCount(|toMove|);
    }
  }
}
