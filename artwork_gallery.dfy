/**
 * The saved-artwork gallery: a list of artworks kept in component state and
 * mirrored into browser storage on every change. Storage holds the list
 * itself (its JSON text is not modelled); the clock that stamps ids is a
 * parameter.
 */
module ArtworkGallery {
  import opened Wrappers
  import C = Config

  datatype Artwork = Artwork(id: int, name: string, config: C.Config, thumbnail: string)

  /** `items.filter(a => a.id !== id)` */
  function Without(items: seq<Artwork>, id: int): (r: seq<Artwork>)
    ensures |r| <= |items|
    ensures forall a :: a in r <==> a in items && a.id != id
  {
    if items == [] then []
    else if items[|items| - 1].id == id then Without(items[..|items| - 1], id)
    else Without(items[..|items| - 1], id) + [items[|items| - 1]]
  }

  /** `items.find(a => a.id === id) || null` */
  function FindById(items: seq<Artwork>, id: int): Option<Artwork> {
    if items == [] then None
    else if items[0].id == id then Some(items[0])
    else FindById(items[1..], id)
  }

  /** The lookup gives null exactly when no artwork has the id, and otherwise the first that has it */
  lemma {:induction false} FindByIdFirst(items: seq<Artwork>, id: int)
    ensures FindById(items, id).None? <==> forall i :: 0 <= i < |items| ==> items[i].id != id
    ensures FindById(items, id).Some? ==> exists i :: 0 <= i < |items| && items[i] == FindById(items, id).value && items[i].id == id && forall j :: 0 <= j < i ==> items[j].id != id
  {
    if items != [] && items[0].id != id {
      var tail := items[1..];
      FindByIdFirst(tail, id);
      assert forall i :: 0 < i < |items| ==> items[i] == tail[i - 1];
      var rest := FindById(tail, id);
      if rest.Some? {
        var k :| 0 <= k < |tail| && tail[k] == rest.value && tail[k].id == id && forall j :: 0 <= j < k ==> tail[j].id != id;
        assert items[k + 1] == rest.value;
        assert forall j :: 0 < j < k + 1 ==> items[j].id != id by {
          forall j | 0 < j < k + 1
            ensures items[j].id != id
          {
            assert items[j] == tail[j - 1];
          }
        }
      }
    } else if items != [] {
      assert items[0] == FindById(items, id).value;
    }
  }

  /** The gallery hook's state: the list it shows and what storage holds */
  class Gallery {
    var saved: seq<Artwork>
    var stored: Option<seq<Artwork>>

    /** Mounting: a stored list, if there is one, becomes the state */
    constructor(stored: Option<seq<Artwork>>)
      ensures this.stored == stored
      ensures saved == stored.GetOr([])
    {
      this.stored := stored;
      saved := stored.GetOr([]);
    }

    /** `persist(items)`: state and storage both become `items` */
    method Persist(items: seq<Artwork>)
      modifies this
      ensures saved == items && stored == Some(items)
    {
      saved := items;
      stored := Some(items);
    }

    method AddArtwork(art: Artwork)
      modifies this
      ensures saved == old(saved) + [art] && stored == Some(saved)
    {
      Persist(saved + [art]);
    }

    /** `createAndSaveArtwork(name, config, thumbnail)`, the id being the clock reading `now` */
    method CreateAndSaveArtwork(name: string, config: C.Config, thumbnail: string, now: int) returns (art: Artwork)
      modifies this
      ensures art == Artwork(now, name, config, thumbnail)
      ensures saved == old(saved) + [art] && stored == Some(saved)
    {
      art := Artwork(now, name, config, thumbnail);
      Persist(saved + [art]);
    }

    method DeleteArtwork(id: int)
      modifies this
      ensures saved == Without(old(saved), id) && stored == Some(saved)
    {
      Persist(Without(saved, id));
    }

    function GetArtworkById(id: int): (r: Option<Artwork>)
      reads this
      ensures r == FindById(saved, id)
    {
      FindById(saved, id)
    }
  }

  // ---------------------------------------------------------------------

  /** Deleting distributes over concatenation, so it keeps the survivors in their order */
  lemma {:induction false} WithoutAppend(a: seq<Artwork>, b: seq<Artwork>, id: int)
    ensures Without(a + b, id) == Without(a, id) + Without(b, id)
    decreases |b|
  {
    if b == [] {
      assert a + b == a;
    } else {
      var last := b[|b| - 1];
      assert (a + b)[..|a + b| - 1] == a + b[..|b| - 1];
      WithoutAppend(a, b[..|b| - 1], id);
    }
  }

  /** Deleting an id nobody has changes nothing */
  lemma {:induction false} WithoutAbsent(items: seq<Artwork>, id: int)
    requires forall i :: 0 <= i < |items| ==> items[i].id != id
    ensures Without(items, id) == items
  {
    if items != [] {
      var init := items[..|items| - 1];
      assert forall i :: 0 <= i < |init| ==> init[i] == items[i];
      WithoutAbsent(init, id);
      assert items == init + [items[|items| - 1]];
    }
  }

  /** Creating an artwork and deleting it by its id brings back the list as it was, when no other artwork had that id */
  lemma CreateThenDelete(items: seq<Artwork>, art: Artwork)
    requires forall i :: 0 <= i < |items| ==> items[i].id != art.id
    ensures Without(items + [art], art.id) == items
  {
    WithoutAppend(items, [art], art.id);
    WithoutAbsent(items, art.id);
    assert [art][..0] == [];
  }

  /** A freshly added artwork is found by its id when no earlier one shares it */
  lemma AddThenFind(items: seq<Artwork>, art: Artwork)
    requires forall i :: 0 <= i < |items| ==> items[i].id != art.id
    ensures FindById(items + [art], art.id) == Some(art)
  {
    var all := items + [art];
    var r := FindById(all, art.id);
    assert all[|items|].id == art.id;
    FindByIdFirst(all, art.id);
    var k :| 0 <= k < |all| && all[k] == r.value && r.value.id == art.id && forall j :: 0 <= j < k ==> all[j].id != art.id;
    assert k == |items|;
  }
}
