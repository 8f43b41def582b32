/**
 * The browser-side property cache (PropertyContext): the list of listings the pages
 * show, a loading flag and the status of the one-off fetch of every listing
 * (`idle → loading → succeeded | failed`). Listings are the JSON objects the server
 * sends; they are told apart by their `_id` field.
 *
 * A fetch is split at its `await`: the step that starts it and the step that settles
 * it with the server's answer, so that a call made while another is in flight can be
 * stated.
 */
module PropertyContext {
  import opened Wrappers
  import opened Json
  import AuthContext
  import Lists

  /** `addProperty`: `[property, ...prev]`. */
  function Prepend(items: seq<Doc>, p: Doc): (r: seq<Doc>)
    ensures |r| == |items| + 1
    ensures r[0] == p && r[1..] == items
  {
    [p] + items
  }

  /** `updateProperty`: every listing with the same `_id` becomes `updated`. */
  function ReplaceById(items: seq<Doc>, updated: Doc): (r: seq<Doc>)
    ensures |r| == |items|
    ensures forall i :: 0 <= i < |r| && IdOf(items[i]) == IdOf(updated) ==> r[i] == updated
    ensures forall i :: 0 <= i < |r| && IdOf(items[i]) != IdOf(updated) ==> r[i] == items[i]
  {
    Lists.Replace(items, IdIs(IdOf(updated)), updated)
  }

  /** `deleteProperty(id)`: the listings whose `_id` differs from `id`, in their order. */
  function RemoveById(items: seq<Doc>, id: Option<Value>): (r: seq<Doc>)
    ensures |r| <= |items|
    ensures forall i :: 0 <= i < |r| ==> r[i] in items && IdOf(r[i]) != id
    ensures forall i :: 0 <= i < |items| && IdOf(items[i]) != id ==> items[i] in r
  {
    Lists.Filter(items, IdIsNot(id))
  }

  /** Removing keeps relative order: it works piecewise on a concatenation. */
  lemma RemoveByIdAppend(a: seq<Doc>, b: seq<Doc>, id: Option<Value>)
    ensures RemoveById(a + b, id) == RemoveById(a, id) + RemoveById(b, id)
  {
    Lists.FilterAppend(a, b, IdIsNot(id));
  }

  /** A list with no listing of that `_id` is left as it is. */
  lemma RemoveByIdAbsent(items: seq<Doc>, id: Option<Value>)
    requires forall i :: 0 <= i < |items| ==> IdOf(items[i]) != id
    ensures RemoveById(items, id) == items
  {
    Lists.FilterKeepsAll(items, IdIsNot(id));
  }

  /** Deleting what was just added takes it out again, with any older copy of it. */
  lemma AddThenDelete(items: seq<Doc>, p: Doc)
    ensures RemoveById(Prepend(items, p), IdOf(p)) == RemoveById(items, IdOf(p))
  {
    RemoveByIdAppend([p], items, IdOf(p));
  }

  /** Replacing twice with the same listing changes nothing more. */
  lemma ReplaceByIdIdempotent(items: seq<Doc>, updated: Doc)
    ensures ReplaceById(ReplaceById(items, updated), updated) == ReplaceById(items, updated)
  {
    Lists.ReplaceIdempotent(items, IdIs(IdOf(updated)), updated);
  }

  datatype FetchStatus = Idle | Loading | Succeeded | Failed

  /** What a fetch ends with: a 2xx answer with the body's `data` (absent or falsy
      gives `None`), or a failure (a non-2xx status, a network error, a bad body). */
  datatype Answer = Ok(data: Option<seq<Doc>>) | Error

  /** The names the provider puts into the context value. */
  const Exported: set<string> := {"properties", "loading", "fetchMyProperties", "fetchAllProperties",
                                  "addProperty", "updateProperty", "deleteProperty", "forceRefreshProperties"}

  datatype CallOutcome = Called | TypeError

  /** Calling a context member by name: a name that is not exported is `undefined`, and
      calling it throws. */
  function CallMember(name: string): (r: CallOutcome)
    ensures r == Called <==> name in Exported
  {
    if name in Exported then Called else TypeError
  }

  /** The names the admin dashboard and the listing page ask for are not exported
      (the provider spells them "fetchMyProperties" and "fetchAllProperties"). */
  lemma PagesCallMissingMembers()
    ensures CallMember("fetchProperties") == TypeError
    ensures CallMember("fetchallProperties") == TypeError
    ensures CallMember("fetchAllProperties") == Called
  {
    assert "fetchProperties"[5] != "fetchAllProperties"[5];
    assert "fetchallProperties"[5] != "fetchAllProperties"[5];
    assert "fetchProperties" !in Exported;
    assert "fetchallProperties" !in Exported;
  }

  class PropertyStore {
    var properties: seq<Doc>
    var loading: bool
    var status: FetchStatus

    constructor()
      ensures properties == [] && !loading && status == Idle
    {
      properties := [];
      loading := false;
      status := Idle;
    }

    /** The first half of `fetchAllProperties`: a no-op while a fetch is in flight or
        after one has succeeded; otherwise it marks the fetch as loading. */
    method StartFetchAll() returns (started: bool)
      modifies this
      ensures started <==> old(status) == Idle || old(status) == Failed
      ensures !started ==> properties == old(properties) && loading == old(loading) && status == old(status)
      ensures started ==> properties == old(properties) && loading && status == Loading
    {
      if status == Loading || status == Succeeded {
        return false;
      }
      loading := true;
      status := Loading;
      started := true;
    }

    /** The second half: the answer decides the list and the status; loading ends. */
    method SettleFetchAll(answer: Answer)
      modifies this
      ensures !loading
      ensures answer.Ok? ==> properties == answer.data.GetOr([]) && status == Succeeded
      ensures answer.Error? ==> properties == [] && status == Failed
    {
      match answer {
        case Ok(data) =>
          properties := data.GetOr([]);
          status := Succeeded;
        case Error =>
          properties := [];
          status := Failed;
      }
      loading := false;
    }

    /** `fetchAllProperties` run to completion with no other call in between. */
    method FetchAll(answer: Answer)
      modifies this
      ensures old(status) == Loading || old(status) == Succeeded ==>
        properties == old(properties) && loading == old(loading) && status == old(status)
      ensures old(status) == Idle || old(status) == Failed ==>
        !loading && status == (if answer.Ok? then Succeeded else Failed)
          && properties == (if answer.Ok? then answer.data.GetOr([]) else [])
    {
      var started := StartFetchAll();
      if started {
        SettleFetchAll(answer);
      }
    }

    /** The effect that runs whenever the status changes: it fetches only from `idle`,
        so a failed fetch is not retried by itself. */
    method StatusEffect(answer: Answer)
      modifies this
      ensures old(status) != Idle ==>
        properties == old(properties) && loading == old(loading) && status == old(status)
      ensures old(status) == Idle ==>
        !loading && status == (if answer.Ok? then Succeeded else Failed)
          && properties == (if answer.Ok? then answer.data.GetOr([]) else [])
    {
      if status == Idle {
        FetchAll(answer);
      }
    }

    /** `forceRefreshProperties`: back to `idle`, which lets the effect fetch again. */
    method ForceRefresh()
      modifies this
      ensures status == Idle && properties == old(properties) && loading == old(loading)
    {
      status := Idle;
    }

    /** `fetchMyProperties`: only for a signed-in admin; the status is not touched. */
    method FetchMine(user: Option<AuthContext.SessionUser>, answer: Answer)
      modifies this
      ensures status == old(status)
      ensures (user.None? || user.value.role != "admin") ==>
        properties == old(properties) && loading == old(loading)
      ensures user.Some? && user.value.role == "admin" ==>
        !loading && properties == (if answer.Ok? then answer.data.GetOr([]) else [])
    {
      if user.None? || user.value.role != "admin" {
        return;
      }
      loading := true;
      match answer {
        case Ok(data) => properties := data.GetOr([]);
        case Error => properties := [];
      }
      loading := false;
    }

    /** `addProperty` */
    method Add(p: Doc)
      modifies this
      ensures properties == Prepend(old(properties), p)
      ensures loading == old(loading) && status == old(status)
    {
      properties := Prepend(properties, p);
    }

    /** `updateProperty` */
    method Update(updated: Doc)
      modifies this
      ensures properties == ReplaceById(old(properties), updated)
      ensures loading == old(loading) && status == old(status)
    {
      properties := ReplaceById(properties, updated);
    }

    /** `deleteProperty` */
    method Delete(id: Option<Value>)
      modifies this
      ensures properties == RemoveById(old(properties), id)
      ensures loading == old(loading) && status == old(status)
    {
      properties := RemoveById(properties, id);
    }
  }
}
