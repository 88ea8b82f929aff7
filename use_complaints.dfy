/** The complaint data hook: an in-memory cache of complaint rows with a
    loading flag and the last error, and the operations that query the
    backend and update the cache from the answer. */
module ComplaintHook {
  import opened Wrappers
  import opened Gateway
  import opened ComplaintModel
  import Seqs

  /** Folder under the user's directory that evidence images go to. */
  const UploadFolder := "complaint-images"
  const UploadErrorPrefix := "Failed to upload image: "

  /** The argument of `addComplaint`. An empty category or priority stands
      for a falsy one. */
  datatype NewComplaint = NewComplaint(
    userId: string,
    title: string,
    description: string,
    category: string,
    priority: string,
    imageFile: Option<ImageFile>)

  /** `s || fallback` on strings. */
  function OrElse(s: string, fallback: string): string
  {
    if s != "" then s else fallback
  }

  /** The row `addComplaint` inserts once the image, if any, is stored at `imageUrl`. */
  function AddPayload(data: NewComplaint, imageUrl: Option<string>): Payload
  {
    Payload(data.userId, data.title, data.description,
            OrElse(data.category, "general"), OrElse(data.priority, "medium"),
            if imageUrl.Some? then Url(imageUrl.value) else Null)
  }

  /** The insert row keeps the caller's text and owner, defaults a falsy
      category to `general` and a falsy priority to `medium`, and carries an
      explicit `null` image exactly when there is no image URL. */
  lemma AddPayloadSpec(data: NewComplaint, imageUrl: Option<string>)
    ensures AddPayload(data, imageUrl).userId == data.userId
    ensures AddPayload(data, imageUrl).title == data.title
    ensures AddPayload(data, imageUrl).description == data.description
    ensures AddPayload(data, imageUrl).category == if data.category == "" then "general" else data.category
    ensures AddPayload(data, imageUrl).priority == if data.priority == "" then "medium" else data.priority
    ensures AddPayload(data, imageUrl).image == Null <==> imageUrl.None?
    ensures AddPayload(data, imageUrl).image != Absent
    ensures imageUrl.Some? ==> AddPayload(data, imageUrl).image == Url(imageUrl.value)
  {
  }

  /** The upload `addComplaint` asks the image-upload helper for. */
  function UploadRequest(data: NewComplaint): Request
  {
    UploadImage(UploadFolder, data.userId, EvidenceBucket)
  }

  predicate UploadFails(data: NewComplaint, uploaded: Outcome<string>)
  {
    data.imageFile.Some? && uploaded.Err?
  }

  /** The image URL the insert carries, when the upload did not fail. */
  function StoredImageUrl(data: NewComplaint, uploaded: Outcome<string>): Option<string>
    requires !UploadFails(data, uploaded)
  {
    if data.imageFile.Some? then Some(uploaded.value) else None
  }

  /** One profile lookup per row that has a submitter, in row order. */
  function ProfileRequests(rows: seq<Complaint>): seq<Request>
  {
    if rows == [] then []
    else (if rows[0].userId != "" then [SelectProfile(rows[0].userId)] else []) + ProfileRequests(rows[1..])
  }

  /** The administrators' load issues exactly one lookup for each row that
      has a submitter, for that submitter, and none for the other rows. */
  lemma {:induction false} ProfileRequestsSpec(rows: seq<Complaint>)
    ensures |ProfileRequests(rows)| == Seqs.Count(rows, (c: Complaint) => c.userId != "")
    ensures var f := Seqs.Filter(rows, (c: Complaint) => c.userId != "");
      && |ProfileRequests(rows)| == |f|
      && forall i :: 0 <= i < |f| ==> ProfileRequests(rows)[i] == SelectProfile(f[i].userId)
    ensures forall r :: r in ProfileRequests(rows) <==>
      exists c :: c in rows && c.userId != "" && r == SelectProfile(c.userId)
  {
    if rows != [] {
      ProfileRequestsSpec(rows[1..]);
      assert rows == [rows[0]] + rows[1..];
      var head := if rows[0].userId != "" then [SelectProfile(rows[0].userId)] else [];
      assert ProfileRequests(rows) == head + ProfileRequests(rows[1..]);
      forall r | r in ProfileRequests(rows)
        ensures exists c :: c in rows && c.userId != "" && r == SelectProfile(c.userId)
      {
        if r in head {
          assert rows[0] in rows;
        } else {
          var c :| c in rows[1..] && c.userId != "" && r == SelectProfile(c.userId);
          assert c in rows;
        }
      }
      forall r | exists c :: c in rows && c.userId != "" && r == SelectProfile(c.userId)
        ensures r in ProfileRequests(rows)
      {
        var c :| c in rows && c.userId != "" && r == SelectProfile(c.userId);
        if c != rows[0] {
          assert c in rows[1..];
        }
      }
    }
  }

  class ComplaintStore {
    var complaints: seq<Complaint>
    var loading: bool
    var error: Option<string>

    constructor ()
      ensures complaints == [] && !loading && error == None
    {
      complaints := [];
      loading := false;
      error := None;
    }

    /** `loadComplaints`: every complaint, newest first, with no user filter. */
    method LoadComplaints(fetched: Outcome<Option<seq<Complaint>>>) returns (sent: seq<Request>)
      modifies this
      ensures sent == [SelectComplaints(None)]
      ensures !loading
      ensures fetched.Ok? ==> complaints == OrEmpty(fetched.value) && error == old(error)
      ensures fetched.Err? ==> complaints == old(complaints) && error == Some(fetched.msg)
    {
      loading := true;
      sent := [SelectComplaints(None)];
      match fetched {
        case Ok(data) => complaints := OrEmpty(data);
        case Err(msg) => error := Some(msg);
      }
      loading := false;
    }

    /** `loadAllComplaints`: every complaint, each joined with its submitter's
        profile; `lookups` holds the answer to each row's profile lookup. */
    method LoadAllComplaints(fetched: Outcome<seq<Complaint>>, lookups: seq<Outcome<Profile>>)
      returns (sent: seq<Request>)
      requires fetched.Ok? ==> |lookups| == |fetched.value|
      modifies this
      ensures !loading
      ensures fetched.Ok? ==>
        && sent == [SelectComplaints(None)] + ProfileRequests(fetched.value)
        && complaints == JoinProfiles(fetched.value, lookups)
        && error == old(error)
      ensures fetched.Err? ==>
        && sent == [SelectComplaints(None)]
        && complaints == old(complaints)
        && error == Some(fetched.msg)
    {
      loading := true;
      sent := [SelectComplaints(None)];
      match fetched {
        case Ok(rows) =>
          sent := sent + ProfileRequests(rows);
          complaints := JoinProfiles(rows, lookups);
        case Err(msg) =>
          error := Some(msg);
      }
      loading := false;
    }

    /** `addComplaint`: upload the image through the upload helper when there
        is one, insert the row, and put the stored row first in the cache.
        The result is the stored row or the error that is rethrown. */
    method AddComplaint(data: NewComplaint, uploaded: Outcome<string>, inserted: Outcome<Complaint>)
      returns (result: Outcome<Complaint>, sent: seq<Request>)
      modifies this
      ensures !loading
      ensures UploadFails(data, uploaded) ==>
        && sent == [UploadRequest(data)]
        && result == Err(UploadErrorPrefix + uploaded.msg)
        && complaints == old(complaints)
        && error == Some(result.msg)
      ensures !UploadFails(data, uploaded) ==>
        && sent == (if data.imageFile.Some? then [UploadRequest(data)] else [])
                   + [InsertComplaint(AddPayload(data, StoredImageUrl(data, uploaded)))]
        && result == inserted
      ensures !UploadFails(data, uploaded) && inserted.Ok? ==>
        complaints == [inserted.value] + old(complaints) && error == old(error)
      ensures !UploadFails(data, uploaded) && inserted.Err? ==>
        complaints == old(complaints) && error == Some(inserted.msg)
    {
      loading := true;
      sent := [];
      var imageUrl: Option<string> := None;
      if data.imageFile.Some? {
        sent := sent + [UploadRequest(data)];
        match uploaded {
          case Err(msg) =>
            result := Err(UploadErrorPrefix + msg);
            error := Some(result.msg);
            loading := false;
            return;
          case Ok(url) =>
            imageUrl := Some(url);
        }
      }
      sent := sent + [InsertComplaint(AddPayload(data, imageUrl))];
      result := inserted;
      match inserted {
        case Ok(row) => complaints := [row] + complaints;
        case Err(msg) => error := Some(msg);
      }
      loading := false;
    }

    /** `updateComplaint`: apply `patch` to row `id`, re-attach the submitter's
        profile (a failed lookup leaves `user` null without failing the
        update) and replace the cached entries with that id in place. */
    method UpdateComplaint(id: string, patch: map<string, string>,
                           updated: Outcome<Complaint>, profile: Outcome<Profile>)
      returns (result: Outcome<Complaint>, sent: seq<Request>)
      modifies this
      ensures loading == old(loading)
      ensures updated.Err? ==>
        && sent == [Request.UpdateComplaint(id, patch)]
        && result == Err(updated.msg)
        && complaints == old(complaints)
        && error == Some(updated.msg)
      ensures updated.Ok? ==>
        && sent == [Request.UpdateComplaint(id, patch)]
                   + (if updated.value.userId != "" then [SelectProfile(updated.value.userId)] else [])
        && result == Ok(AttachProfile(updated.value, profile))
        && complaints == ReplaceById(old(complaints), id, result.value)
        && error == old(error)
    {
      sent := [Request.UpdateComplaint(id, patch)];
      match updated {
        case Err(msg) =>
          error := Some(msg);
          result := Err(msg);
        case Ok(row) =>
          if row.userId != "" {
            sent := sent + [SelectProfile(row.userId)];
          }
          var withProfile := AttachProfile(row, profile);
          complaints := ReplaceById(complaints, id, withProfile);
          result := Ok(withProfile);
      }
    }

    /** `deleteComplaint`: delete by id alone and drop the cached entries with
        that id. The result is the rethrown error, if any. */
    method DeleteComplaint(id: string, deleted: Status) returns (result: Status, sent: seq<Request>)
      modifies this
      ensures sent == [Request.DeleteComplaint(id, None)]
      ensures result == deleted
      ensures loading == old(loading)
      ensures deleted.Done? ==> complaints == RemoveById(old(complaints), id) && error == old(error)
      ensures deleted.Failed? ==> complaints == old(complaints) && error == Some(deleted.msg)
    {
      sent := [Request.DeleteComplaint(id, None)];
      result := deleted;
      if deleted.Failed? {
        error := Some(deleted.msg);
      } else {
        complaints := RemoveById(complaints, id);
      }
    }
  }
}
