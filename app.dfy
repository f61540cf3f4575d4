/**
 * The application shell: loading the collection list, hiding the ignore
 * list, choosing the collection shown first, and finding the "My List" and
 * "Liked Companies List" collections by name.
 */
module App {
  import opened Shared

  const IgnoreListName := "Companies to Ignore List"
  const MyListName := "My List"

  /** An entry of the collection listing. */
  datatype CollectionMeta = CollectionMeta(id: CollectionId, collectionName: string)

  /** The listing without the collections named like the ignore list, in order. */
  function WithoutIgnored(cs: seq<CollectionMeta>): seq<CollectionMeta>
  {
    if |cs| == 0 then []
    else (if cs[0].collectionName != IgnoreListName then [cs[0]] else []) + WithoutIgnored(cs[1..])
  }

  /** The id of the first collection, if there is one. */
  function FirstId(cs: seq<CollectionMeta>): Option<CollectionId>
  {
    if |cs| == 0 then None else Some(cs[0].id)
  }

  /** The id of the last collection called `name`, or `previous` if none is. */
  function LastIdNamed(cs: seq<CollectionMeta>, name: string, previous: Option<CollectionId>): Option<CollectionId>
  {
    if |cs| == 0 then previous
    else if cs[|cs| - 1].collectionName == name then Some(cs[|cs| - 1].id)
    else LastIdNamed(cs[..|cs| - 1], name, previous)
  }

  /** The filtered listing holds exactly the collections not named like the ignore list. */
  lemma {:induction false} WithoutIgnoredMembers(cs: seq<CollectionMeta>)
    ensures forall c :: c in WithoutIgnored(cs) <==> c in cs && c.collectionName != IgnoreListName
    decreases |cs|
  {
    if |cs| > 0 {
      WithoutIgnoredMembers(cs[1..]);
      assert cs == [cs[0]] + cs[1..];
    }
  }

  /** Filtering commutes with concatenation, so the kept collections keep their relative order. */
  lemma {:induction false} WithoutIgnoredAppend(a: seq<CollectionMeta>, b: seq<CollectionMeta>)
    ensures WithoutIgnored(a + b) == WithoutIgnored(a) + WithoutIgnored(b)
    decreases |a|
  {
    if |a| == 0 {
      assert a + b == b;
    } else {
      var head := if a[0].collectionName != IgnoreListName then [a[0]] else [];
      assert (a + b)[0] == a[0];
      assert (a + b)[1..] == a[1..] + b;
      calc {
        WithoutIgnored(a + b);
        head + WithoutIgnored(a[1..] + b);
        { WithoutIgnoredAppend(a[1..], b); }
        head + (WithoutIgnored(a[1..]) + WithoutIgnored(b));
        (head + WithoutIgnored(a[1..])) + WithoutIgnored(b);
      }
    }
  }

  /** The collection shown first is the first one not named like the ignore list; there is none only if all are. */
  lemma {:induction false} FirstShownIsFirstKept(cs: seq<CollectionMeta>)
    ensures FirstId(WithoutIgnored(cs)) == None <==> forall i :: 0 <= i < |cs| ==> cs[i].collectionName == IgnoreListName
    ensures FirstId(WithoutIgnored(cs)).Some? ==>
              exists i :: 0 <= i < |cs| && cs[i].collectionName != IgnoreListName
                          && FirstId(WithoutIgnored(cs)) == Some(cs[i].id)
                          && forall j :: 0 <= j < i ==> cs[j].collectionName == IgnoreListName
    decreases |cs|
  {
    if |cs| > 0 {
      FirstShownIsFirstKept(cs[1..]);
      if cs[0].collectionName == IgnoreListName {
        assert WithoutIgnored(cs) == WithoutIgnored(cs[1..]);
        if FirstId(WithoutIgnored(cs)).Some? {
          var i :| 0 <= i < |cs[1..]| && cs[1..][i].collectionName != IgnoreListName
                   && FirstId(WithoutIgnored(cs[1..])) == Some(cs[1..][i].id)
                   && forall j :: 0 <= j < i ==> cs[1..][j].collectionName == IgnoreListName;
          assert forall j :: 0 <= j < i + 1 ==> cs[j].collectionName == IgnoreListName by {
            forall j | 0 <= j < i + 1 ensures cs[j].collectionName == IgnoreListName {
              if j > 0 { assert cs[j] == cs[1..][j - 1]; }
            }
          }
          assert cs[i + 1] == cs[1..][i];
        } else {
          forall i | 0 <= i < |cs| ensures cs[i].collectionName == IgnoreListName {
            if i > 0 { assert cs[i] == cs[1..][i - 1]; }
          }
        }
      } else {
        assert WithoutIgnored(cs)[0] == cs[0];
      }
    }
  }

  /** `LastIdNamed` is the id of the last match, or `previous` when nothing matches. */
  lemma {:induction false} LastIdNamedIsLastMatch(cs: seq<CollectionMeta>, name: string, previous: Option<CollectionId>)
    ensures (forall i :: 0 <= i < |cs| ==> cs[i].collectionName != name) ==> LastIdNamed(cs, name, previous) == previous
    ensures forall i :: 0 <= i < |cs| && cs[i].collectionName == name
                        && (forall j :: i < j < |cs| ==> cs[j].collectionName != name)
                        ==> LastIdNamed(cs, name, previous) == Some(cs[i].id)
    decreases |cs|
  {
    if |cs| > 0 {
      var init := cs[..|cs| - 1];
      LastIdNamedIsLastMatch(init, name, previous);
      forall i | 0 <= i < |cs| && cs[i].collectionName == name
                 && (forall j :: i < j < |cs| ==> cs[j].collectionName != name)
        ensures LastIdNamed(cs, name, previous) == Some(cs[i].id)
      {
        if i < |cs| - 1 {
          assert cs[|cs| - 1].collectionName != name;
          assert init[i] == cs[i];
          assert forall j :: i < j < |init| ==> init[j].collectionName != name by {
            forall j | i < j < |init| ensures init[j].collectionName != name {
              assert init[j] == cs[j];
            }
          }
        }
      }
      if forall i :: 0 <= i < |cs| ==> cs[i].collectionName != name {
        assert forall i :: 0 <= i < |init| ==> init[i].collectionName != name by {
          forall i | 0 <= i < |init| ensures init[i].collectionName != name {
            assert init[i] == cs[i];
          }
        }
      }
    }
  }

  /** A resolved role id is the previous value or the id of a collection with that role's name. */
  lemma {:induction false} LastIdNamedFrom(cs: seq<CollectionMeta>, name: string, previous: Option<CollectionId>)
    ensures LastIdNamed(cs, name, previous) == previous
            || exists c :: c in cs && c.collectionName == name && LastIdNamed(cs, name, previous) == Some(c.id)
    decreases |cs|
  {
    if |cs| > 0 && cs[|cs| - 1].collectionName != name {
      var init := cs[..|cs| - 1];
      LastIdNamedFrom(init, name, previous);
      if LastIdNamed(init, name, previous) != previous {
        var c :| c in init && c.collectionName == name && LastIdNamed(init, name, previous) == Some(c.id);
        assert c in cs;
      }
    }
  }

  /**
   * The ignore list never takes a role: the shown collection comes from the
   * filtered listing, and the two role ids are either kept or taken from a
   * collection bearing that role's name.
   */
  lemma IgnoreListTakesNoRole(cs: seq<CollectionMeta>, myListId: Option<CollectionId>, likedId: Option<CollectionId>)
    ensures FirstId(WithoutIgnored(cs)).Some? ==>
              exists c :: c in cs && c.collectionName != IgnoreListName && FirstId(WithoutIgnored(cs)) == Some(c.id)
    ensures LastIdNamed(WithoutIgnored(cs), MyListName, myListId) == myListId
            || exists c :: c in cs && c.collectionName == MyListName
                           && LastIdNamed(WithoutIgnored(cs), MyListName, myListId) == Some(c.id)
    ensures LastIdNamed(WithoutIgnored(cs), LikedListName, likedId) == likedId
            || exists c :: c in cs && c.collectionName == LikedListName
                           && LastIdNamed(WithoutIgnored(cs), LikedListName, likedId) == Some(c.id)
  {
    var kept := WithoutIgnored(cs);
    WithoutIgnoredMembers(cs);
    if |kept| > 0 {
      assert kept[0] in kept;
    }
    LastIdNamedFrom(kept, MyListName, myListId);
    LastIdNamedFrom(kept, LikedListName, likedId);
  }

  /**
   * The `forEach` over the filtered listing: each "My List" entry overwrites
   * `myListId` and each "Liked Companies List" entry overwrites
   * `likedCompaniesId`, so the last match wins.
   */
  method ResolveRoles(filtered: seq<CollectionMeta>, myListId: Option<CollectionId>, likedCompaniesId: Option<CollectionId>)
    returns (myList: Option<CollectionId>, liked: Option<CollectionId>)
    ensures myList == LastIdNamed(filtered, MyListName, myListId)
    ensures liked == LastIdNamed(filtered, LikedListName, likedCompaniesId)
  {
    myList, liked := myListId, likedCompaniesId;
    for i := 0 to |filtered|
      invariant myList == LastIdNamed(filtered[..i], MyListName, myListId)
      invariant liked == LastIdNamed(filtered[..i], LikedListName, likedCompaniesId)
    {
      assert filtered[..i + 1][..i] == filtered[..i];
      if filtered[i].collectionName == MyListName {
        myList := Some(filtered[i].id);
      } else if filtered[i].collectionName == LikedListName {
        liked := Some(filtered[i].id);
      }
    }
    assert filtered[..|filtered|] == filtered;
  }

  class AppState {
    var selectedCollectionId: Option<CollectionId>
    var myListId: Option<CollectionId>
    var likedCompaniesId: Option<CollectionId>

    constructor ()
      ensures selectedCollectionId == None && myListId == None && likedCompaniesId == None
    {
      selectedCollectionId, myListId, likedCompaniesId := None, None, None;
    }

    /**
     * The effect that runs when the collection listing arrives (or is still
     * absent). The shown collection is replaced every time; the role ids only
     * when a collection of that name is present.
     */
    method OnCollectionsLoaded(collectionResponse: Option<seq<CollectionMeta>>)
      modifies this
      ensures collectionResponse.None? ==>
                selectedCollectionId == None && myListId == old(myListId) && likedCompaniesId == old(likedCompaniesId)
      ensures collectionResponse.Some? ==>
                var kept := WithoutIgnored(collectionResponse.value);
                && selectedCollectionId == FirstId(kept)
                && myListId == LastIdNamed(kept, MyListName, old(myListId))
                && likedCompaniesId == LastIdNamed(kept, LikedListName, old(likedCompaniesId))
    {
      if collectionResponse.None? {
        selectedCollectionId := None;
        return;
      }
      var kept := WithoutIgnored(collectionResponse.value);
      selectedCollectionId := FirstId(kept);
      myListId, likedCompaniesId := ResolveRoles(kept, myListId, likedCompaniesId);
    }

    /** `switchCollection`: show collection `id`; nothing else changes. */
    method SwitchCollection(id: CollectionId)
      modifies this
      ensures selectedCollectionId == Some(id)
      ensures myListId == old(myListId) && likedCompaniesId == old(likedCompaniesId)
    {
      selectedCollectionId := Some(id);
    }
  }
}
