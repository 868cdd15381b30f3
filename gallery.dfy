/** The desktop app's "My Uploads" gallery: the latest twenty screenshots, and deletion by id. */
module Gallery {
  import opened Common

  datatype Screenshot = Screenshot(id: string, path: string, filename: string, url: string)

  const Limit: nat := 20

  /** `data.slice(0, 20)` */
  function Latest(data: seq<Screenshot>): (r: seq<Screenshot>)
    ensures |r| == (if |data| < Limit then |data| else Limit)
    ensures forall i :: 0 <= i < |r| ==> r[i] == data[i]
  {
    if |data| <= Limit then data else data[..Limit]
  }

  /** `list.filter(img => img.id !== id)` */
  function WithoutId(list: seq<Screenshot>, id: string): (r: seq<Screenshot>)
    ensures |r| <= |list|
    decreases |list|
  {
    if list == [] then []
    else if list[0].id == id then WithoutId(list[1..], id)
    else [list[0]] + WithoutId(list[1..], id)
  }

  /** Exactly the items with another id remain. */
  lemma {:induction false} WithoutIdMembers(list: seq<Screenshot>, id: string)
    ensures forall x :: x in WithoutId(list, id) <==> x in list && x.id != id
    decreases |list|
  {
    if list != [] {
      WithoutIdMembers(list[1..], id);
      assert list == [list[0]] + list[1..];
    }
  }

  /** Filtering works piecewise, so the survivors keep their order. */
  lemma {:induction false} WithoutIdAppend(a: seq<Screenshot>, b: seq<Screenshot>, id: string)
    ensures WithoutId(a + b, id) == WithoutId(a, id) + WithoutId(b, id)
    decreases |a|
  {
    if a == [] {
      assert a + b == b;
    } else {
      assert (a + b)[1..] == a[1..] + b;
      WithoutIdAppend(a[1..], b, id);
    }
  }

  /** A list without the id is left as it is; in particular deleting twice is deleting once. */
  lemma {:induction false} WithoutIdAbsent(list: seq<Screenshot>, id: string)
    requires forall i :: 0 <= i < |list| ==> list[i].id != id
    ensures WithoutId(list, id) == list
    decreases |list|
  {
    if list != [] {
      WithoutIdAbsent(list[1..], id);
    }
  }

  lemma WithoutIdIdempotent(list: seq<Screenshot>, id: string)
    ensures WithoutId(WithoutId(list, id), id) == WithoutId(list, id)
  {
    var r := WithoutId(list, id);
    WithoutIdMembers(list, id);
    forall i | 0 <= i < |r| ensures r[i].id != id {
      assert r[i] in r;
    }
    WithoutIdAbsent(r, id);
  }

  /** What `getUserScreenshots` resolves to or rejects with. */
  datatype FetchReply = Fetched(items: seq<Screenshot>) | FetchFailed(message: Option<string>)

  const LoadFailure: string := "Failed to load screenshots"

  /** `'Failed to delete: ' + err.message`: a missing message prints as `undefined`. */
  function DeleteAlert(message: Option<string>): string {
    "Failed to delete: " + (match message case None => "undefined" case Some(m) => m)
  }

  /** The gallery's state. `deleteCalls` lists the (id, path) pairs sent to the backend. */
  class GalleryView {
    var screenshots: seq<Screenshot>
    var loading: bool
    var error: string
    var alerts: seq<string>
    var deleteCalls: seq<(string, string)>

    constructor ()
      ensures screenshots == [] && loading && error == "" && alerts == [] && deleteCalls == []
    {
      screenshots, loading, error, alerts, deleteCalls := [], true, "", [], [];
    }

    /** `loadScreenshots` with the backend's reply. */
    method LoadScreenshots(reply: FetchReply)
      modifies this`screenshots, this`loading, this`error
      ensures !loading
      ensures reply.Fetched? ==> screenshots == Latest(reply.items) && error == ""
      ensures reply.FetchFailed? ==> screenshots == old(screenshots) && error == OrElse(reply.message, LoadFailure)
    {
      loading := true;
      error := "";
      if reply.Fetched? {
        screenshots := Latest(reply.items);
      } else {
        error := OrElse(reply.message, LoadFailure);
      }
      loading := false;
    }

    /** `handleDelete(imageId, path)`; `confirmed` is the answer to the confirm dialog and
        `outcome` the backend's. */
    method HandleDelete(imageId: string, path: string, confirmed: bool, outcome: Outcome)
      modifies this`screenshots, this`alerts, this`deleteCalls
      ensures !confirmed ==> screenshots == old(screenshots) && alerts == old(alerts) && deleteCalls == old(deleteCalls)
      ensures confirmed ==> deleteCalls == old(deleteCalls) + [(imageId, path)]
      ensures confirmed && outcome.Done? ==> screenshots == WithoutId(old(screenshots), imageId) && alerts == old(alerts)
      ensures confirmed && outcome.Failed? ==>
        screenshots == old(screenshots) && alerts == old(alerts) + [DeleteAlert(outcome.message)]
    {
      if !confirmed {
        return;
      }
      deleteCalls := deleteCalls + [(imageId, path)];
      if outcome.Done? {
        screenshots := WithoutId(screenshots, imageId);
      } else {
        alerts := alerts + [DeleteAlert(outcome.message)];
      }
    }
  }
}
