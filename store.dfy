/** The request list of `requests.json`, held in memory: `loadRequests`
    becomes reading `requests` and `saveRequests` assigning it. The three
    operations that change it or sort a copy of it are methods here. */
module Store {
  import opened Text
  import opened Callbacks
  import opened Requests

  /** What the admin's "all requests" button answers. */
  datatype AdminListing = ListDenied | ListEmpty | ListAll(items: seq<Request>)

  class RequestStore {
    var requests: seq<Request>

    /** The store as `loadRequests` reads it; an absent or unreadable file reads as `[]`. */
    constructor (loaded: seq<Request>)
      ensures requests == loaded
    {
      requests := loaded;
    }

    /** `createRequest`: one new record with status 'новая', the caller's
        display name and the current draft as its data, pushed at the end and
        saved. `username` and `firstName` are `ctx.from.username` and
        `ctx.from.first_name`, `None` when absent. */
    method Create(draft: Draft, id: nat, userId: int, username: Option<string>, firstName: Option<string>, createdAt: int)
      returns (r: Request)
      modifies this
      ensures requests == old(requests) + [r]
      ensures r.id == id && r.userId == userId && r.createdAt == createdAt
      ensures r.userName == DisplayName(username, firstName)
      ensures r.status == StatusNew && r.data == draft
    {
      r := Request(id, userId, DisplayName(username, firstName), createdAt, StatusNew, draft);
      var loaded := requests;
      loaded := loaded + [r];
      requests := loaded;
    }

    /** The handlers of `admin_status_progress_<id>` and `admin_status_done_<id>`. */
    method ChangeStatus(caller: int, adminId: Option<string>, kind: StatusKind, data: string) returns (reply: Outcome<Notice>)
      modifies this
      ensures reply == ApplyStatus(old(requests), caller, adminId, kind, data).reply
      ensures requests == ApplyStatus(old(requests), caller, adminId, kind, data).store
      ensures !reply.Ok? ==> requests == old(requests)
    {
      if !IsAdmin(caller, adminId) {
        return Denied;
      }
      var requestId := StatusId(data);
      var loaded := requests;
      var found := Lookup(loaded, requestId);
      if found.None? {
        return NotFound;
      }
      var i := found.value;
      loaded := loaded[i := loaded[i].(status := StatusOf(kind))];
      requests := loaded;
      reply := Ok(Notice(loaded[i].userId, loaded[i].id, loaded[i].status));
    }

    /** The handler of `admin_requests`: the admin check, then a sorted copy
        of the list, newest first; the store itself is not written. */
    method AdminRequests(caller: int, adminId: Option<string>) returns (reply: AdminListing)
      ensures !IsAdmin(caller, adminId) ==> reply == ListDenied
      ensures IsAdmin(caller, adminId) && requests == [] ==> reply == ListEmpty
      ensures IsAdmin(caller, adminId) && requests != [] ==>
        reply.ListAll? && NewestFirst(reply.items) && multiset(reply.items) == multiset(requests)
    {
      if !IsAdmin(caller, adminId) {
        return ListDenied;
      }
      var loaded := requests;
      if |loaded| == 0 {
        return ListEmpty;
      }
      var a := new Request[|loaded|](i requires 0 <= i < |loaded| => loaded[i]);
      assert a[..] == loaded;
      SortNewestFirst(a);
      reply := ListAll(a[..]);
    }
  }

  /** Exchanges two neighbouring elements. */
  method SwapDown(a: array<Request>, j: nat)
    requires 0 < j < a.Length
    modifies a
    ensures a[..] == old(a[..])[j - 1 := old(a[j])][j := old(a[j - 1])]
    ensures multiset(a[..]) == old(multiset(a[..]))
  {
    a[j - 1], a[j] := a[j], a[j - 1];
  }

  /** The sort of the admin listing by `createdAt`, newest first, as a stable
      insertion sort: an element moves left only past strictly older ones. */
  method SortNewestFirst(a: array<Request>)
    modifies a
    ensures NewestFirst(a[..])
    ensures multiset(a[..]) == old(multiset(a[..]))
  {
    if a.Length == 0 {
      return;
    }
    var i := 1;
    while i < a.Length
      invariant 1 <= i <= a.Length
      invariant NewestFirst(a[..i])
      invariant multiset(a[..]) == old(multiset(a[..]))
    {
      var j := i;
      while j > 0 && a[j - 1].createdAt < a[j].createdAt
        invariant 0 <= j <= i
        invariant forall p, q :: 0 <= p < q <= i && p != j && q != j ==> a[p].createdAt >= a[q].createdAt
        invariant forall q :: j < q <= i ==> a[j].createdAt > a[q].createdAt
        invariant multiset(a[..]) == old(multiset(a[..]))
      {
        SwapDown(a, j);
        j := j - 1;
      }
      i := i + 1;
    }
    assert a[..] == a[..a.Length];
  }
}
