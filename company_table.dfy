/**
 * The company table component: its page window, its row selection and the
 * move handlers that drive the batched dispatch. Each handler runs to
 * completion; the replies of the remote calls it makes are its inputs.
 */
module CompanyTable {
  import opened Shared
  import opened JamApi

  /** A row of the grid. */
  datatype Company = Company(id: CompanyId, companyName: string, liked: bool)

  /** The part of a collection listing that the table keeps: one page of rows and the total count. */
  datatype Page = Page(companies: seq<Company>, total: nat)

  /** A remote call the table made, in the order made. */
  datatype Request =
    | FetchPage(collection: CollectionId, offset: nat, limit: nat)
    | Move(call: MoveCall)
    | MoveAll(source: CollectionId, destination: CollectionId)

  /** The alert a handler shows the user. */
  datatype Notice =
    | DestinationNotDefined
    | NothingSelected
    | Moved(count: nat)
    | MoveFailed
    | MovedAll
    | MoveAllFailed

  /** The selected collection is "My List". An undefined `myListId` equals no collection. */
  predicate IsMyList(selected: CollectionId, myListId: Option<CollectionId>)
  {
    myListId == Some(selected)
  }

  /** Items move from "My List" to "Liked Companies List" and from every other collection to "My List". */
  function Destination(selected: CollectionId, myListId: Option<CollectionId>,
                       likedCompaniesId: Option<CollectionId>): Option<CollectionId>
  {
    if IsMyList(selected, myListId) then likedCompaniesId else myListId
  }

  /** JavaScript truthiness of an optional id: undefined and the empty string are both falsy. */
  predicate IsDefined(id: Option<CollectionId>)
  {
    id.Some? && id.value != ""
  }

  function ButtonLabel(selected: CollectionId, myListId: Option<CollectionId>): string
  {
    if IsMyList(selected, myListId) then "Move to Liked Companies" else "Move to My List"
  }

  function MoveAllLabel(selected: CollectionId, myListId: Option<CollectionId>): string
  {
    if IsMyList(selected, myListId) then "Move All to Liked Companies" else "Move All to My List"
  }

  /** When the two role ids differ, a defined destination is never the collection being shown. */
  lemma DestinationDiffersFromSource(selected: CollectionId, myListId: Option<CollectionId>,
                                     likedCompaniesId: Option<CollectionId>)
    requires myListId != likedCompaniesId
    ensures Destination(selected, myListId, likedCompaniesId) != Some(selected)
  {
  }

  /** The buttons name the collection items actually go to. */
  lemma LabelsNameDestination(selected: CollectionId, myListId: Option<CollectionId>,
                              likedCompaniesId: Option<CollectionId>)
    ensures ButtonLabel(selected, myListId) == "Move to Liked Companies" ==>
              Destination(selected, myListId, likedCompaniesId) == likedCompaniesId
    ensures ButtonLabel(selected, myListId) == "Move to My List" ==>
              Destination(selected, myListId, likedCompaniesId) == myListId
    ensures MoveAllLabel(selected, myListId) == "Move All to Liked Companies" <==>
              ButtonLabel(selected, myListId) == "Move to Liked Companies"
  {
  }

  /**
   * The destination in terms of the two roles: it is always one of the two
   * role ids, items shown from the liked list go to "My List", and when the
   * roles are distinct the destination is the liked list exactly when
   * "My List" is shown. With neither role resolved there is no destination.
   */
  lemma DestinationRoles(selected: CollectionId, myListId: Option<CollectionId>,
                         likedCompaniesId: Option<CollectionId>)
    ensures var d := Destination(selected, myListId, likedCompaniesId);
            d == likedCompaniesId || d == myListId
    ensures likedCompaniesId == Some(selected) ==>
              Destination(selected, myListId, likedCompaniesId) == myListId
    ensures myListId != likedCompaniesId ==>
              (Destination(selected, myListId, likedCompaniesId) == likedCompaniesId <==> IsMyList(selected, myListId))
    ensures myListId == None && likedCompaniesId == None ==>
              !IsDefined(Destination(selected, myListId, likedCompaniesId))
  {
  }

  /** The log entries for the move calls a dispatch issued. */
  function MoveRequests(log: seq<MoveCall>): seq<Request>
  {
    seq(|log|, k requires 0 <= k < |log| => Move(log[k]))
  }

  class Table {
    // Properties passed in by the application.
    var selectedCollectionId: CollectionId
    var myListId: Option<CollectionId>
    var likedCompaniesId: Option<CollectionId>

    // Component state.
    var response: seq<Company>
    var total: nat
    var offset: nat
    var pageSize: nat
    var selectedCompanies: seq<CompanyId>
    var buttonLoading: bool
    var fetching: bool

    /** The remote calls made so far, in order. */
    ghost var requests: seq<Request>

    function Props(): (CollectionId, Option<CollectionId>, Option<CollectionId>)
      reads this
    {
      (selectedCollectionId, myListId, likedCompaniesId)
    }

    function Window(): (nat, nat)
      reads this
    {
      (offset, pageSize)
    }

    function CurrentDestination(): Option<CollectionId>
      reads this
    {
      Destination(selectedCollectionId, myListId, likedCompaniesId)
    }

    /** The "move selected" button is disabled with nothing selected or while a move is running. */
    predicate MoveDisabled()
      reads this
    {
      |selectedCompanies| == 0 || buttonLoading
    }

    /** The "move all" button is disabled only while a move is running. */
    predicate MoveAllDisabled()
      reads this
    {
      buttonLoading
    }

    /** The state on first render: no rows, offset 0, 25 rows per page, nothing selected, idle. */
    constructor (selected: CollectionId, myList: Option<CollectionId>, liked: Option<CollectionId>)
      ensures Props() == (selected, myList, liked)
      ensures response == [] && total == 0 && Window() == (0, 25)
      ensures selectedCompanies == [] && !buttonLoading && !fetching
      ensures requests == []
    {
      selectedCollectionId, myListId, likedCompaniesId := selected, myList, liked;
      response, total := [], 0;
      offset, pageSize := 0, 25;
      selectedCompanies := [];
      buttonLoading, fetching := false, false;
      requests := [];
    }

    /**
     * `fetchCompanies`: request the current window; a reply replaces the rows
     * and the total, a failure keeps the stale ones; `fetching` is cleared
     * either way.
     */
    method FetchCompanies(reply: Reply<Page>)
      modifies this
      ensures requests == old(requests) + [FetchPage(selectedCollectionId, offset, pageSize)]
      ensures reply.Ok? ==> response == reply.data.companies && total == reply.data.total
      ensures reply.Err? ==> response == old(response) && total == old(total)
      ensures !fetching
      ensures Props() == old(Props()) && Window() == old(Window())
      ensures selectedCompanies == old(selectedCompanies) && buttonLoading == old(buttonLoading)
    {
      fetching := true;
      requests := requests + [FetchPage(selectedCollectionId, offset, pageSize)];
      if reply.Ok? {
        response := reply.data.companies;
        total := reply.data.total;
      }
      fetching := false;
    }

    /**
     * New properties from the application. A change of collection resets the
     * offset to 0; the selection is kept.
     */
    method ReceiveProps(selected: CollectionId, myList: Option<CollectionId>, liked: Option<CollectionId>)
      modifies this
      ensures Props() == (selected, myList, liked)
      ensures offset == if selected != old(selectedCollectionId) then 0 else old(offset)
      ensures pageSize == old(pageSize) && selectedCompanies == old(selectedCompanies)
      ensures response == old(response) && total == old(total)
      ensures buttonLoading == old(buttonLoading) && fetching == old(fetching) && requests == old(requests)
    {
      if selected != selectedCollectionId {
        offset := 0;
      }
      selectedCollectionId, myListId, likedCompaniesId := selected, myList, liked;
    }

    /** The grid moved to page `page` with `newPageSize` rows per page. */
    method OnPaginationModelChange(page: nat, newPageSize: nat)
      modifies this
      ensures offset == page * newPageSize && pageSize == newPageSize
      ensures Props() == old(Props()) && selectedCompanies == old(selectedCompanies)
      ensures response == old(response) && total == old(total)
      ensures buttonLoading == old(buttonLoading) && fetching == old(fetching) && requests == old(requests)
    {
      offset := page * newPageSize;
      pageSize := newPageSize;
    }

    /** The user changed which rows are ticked. */
    method OnRowSelectionModelChange(selection: seq<CompanyId>)
      modifies this
      ensures selectedCompanies == selection
      ensures Props() == old(Props()) && Window() == old(Window())
      ensures response == old(response) && total == old(total)
      ensures buttonLoading == old(buttonLoading) && fetching == old(fetching) && requests == old(requests)
    {
      selectedCompanies := selection;
    }

    /**
     * `handleMoveCompanies`. Without a destination, or with nothing selected,
     * nothing is sent and nothing changes (the destination is checked first).
     * Otherwise the selection is dispatched in batches of 100; success clears
     * the selection and re-fetches the current window, failure keeps the
     * selection and the rows. The busy flag is clear afterwards in both cases.
     */
    method HandleMoveCompanies(remote: Remote, fetchReply: Reply<Page>)
      returns (notice: Notice, ghost outcome: Outcome, ghost log: seq<MoveCall>)
      modifies this
      ensures !IsDefined(old(CurrentDestination())) ==> notice == DestinationNotDefined && unchanged(this)
      ensures !old(MoveDisabled()) ==> notice != NothingSelected
      ensures IsDefined(old(CurrentDestination())) && |old(selectedCompanies)| == 0 ==>
                notice == NothingSelected && unchanged(this)
      ensures IsDefined(old(CurrentDestination())) && |old(selectedCompanies)| > 0 ==>
                && Dispatched(old(selectedCollectionId), old(CurrentDestination()).value, old(selectedCompanies),
                              DefaultBatchSize, remote, log, outcome)
                && Props() == old(Props()) && Window() == old(Window())
                && !buttonLoading
                && (outcome.Resolved? ==>
                      && notice == Moved(|old(selectedCompanies)|)
                      && selectedCompanies == []
                      && requests == old(requests) + MoveRequests(log) + [FetchPage(selectedCollectionId, offset, pageSize)]
                      && (fetchReply.Ok? ==> response == fetchReply.data.companies && total == fetchReply.data.total)
                      && (fetchReply.Err? ==> response == old(response) && total == old(total))
                      && !fetching)
                && (outcome.Rejected? ==>
                      && notice == MoveFailed
                      && selectedCompanies == old(selectedCompanies)
                      && requests == old(requests) + MoveRequests(log)
                      && response == old(response) && total == old(total) && fetching == old(fetching))
    {
      outcome, log := Resolved(None), [];
      var destination := CurrentDestination();
      if !IsDefined(destination) {
        notice := DestinationNotDefined;
        return;
      }
      if |selectedCompanies| == 0 {
        notice := NothingSelected;
        return;
      }
      buttonLoading := true;
      var result, calls := MoveCompaniesInBatches(selectedCollectionId, destination.value, selectedCompanies,
                                                  DefaultBatchSize, remote);
      outcome, log := result, calls;
      requests := requests + MoveRequests(calls);
      if result.Resolved? {
        notice := Moved(|selectedCompanies|);
        selectedCompanies := [];
        FetchCompanies(fetchReply);
      } else {
        notice := MoveFailed;
      }
      buttonLoading := false;
    }

    /**
     * `handleMoveAllCompanies`: only the destination is checked (an empty
     * selection is no obstacle), and the selection is never cleared. One
     * move-all call is made; success re-fetches the current window.
     */
    method HandleMoveAllCompanies(moveAllReply: Reply<string>, fetchReply: Reply<Page>) returns (notice: Notice)
      modifies this
      ensures !IsDefined(old(CurrentDestination())) ==> notice == DestinationNotDefined && unchanged(this)
      ensures IsDefined(old(CurrentDestination())) ==>
                && Props() == old(Props()) && Window() == old(Window())
                && selectedCompanies == old(selectedCompanies)
                && !buttonLoading
                && (moveAllReply.Ok? ==>
                      && notice == MovedAll
                      && requests == old(requests) + [MoveAll(selectedCollectionId, old(CurrentDestination()).value),
                                                      FetchPage(selectedCollectionId, offset, pageSize)]
                      && (fetchReply.Ok? ==> response == fetchReply.data.companies && total == fetchReply.data.total)
                      && (fetchReply.Err? ==> response == old(response) && total == old(total))
                      && !fetching)
                && (moveAllReply.Err? ==>
                      && notice == MoveAllFailed
                      && requests == old(requests) + [MoveAll(selectedCollectionId, old(CurrentDestination()).value)]
                      && response == old(response) && total == old(total) && fetching == old(fetching))
    {
      var destination := CurrentDestination();
      if !IsDefined(destination) {
        notice := DestinationNotDefined;
        return;
      }
      buttonLoading := true;
      requests := requests + [MoveAll(selectedCollectionId, destination.value)];
      if moveAllReply.Ok? {
        notice := MovedAll;
        FetchCompanies(fetchReply);
      } else {
        notice := MoveAllFailed;
      }
      buttonLoading := false;
    }
  }
}
