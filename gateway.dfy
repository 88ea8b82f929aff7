/** The requests the complaint code sends to the hosted database and object
    store. The backend itself is not modelled: each operation takes the
    backend's answers as inputs and reports, in order, the requests it sent. */
module Gateway {
  import opened Wrappers

  /** Storage bucket that holds complaint evidence images. */
  const EvidenceBucket := "complaints-evidence"

  /** How an insert payload carries the image reference: no `image_url` key
      at all, an explicit `null`, or a URL. */
  datatype ImageField = Absent | Null | Url(url: string)

  /** The row sent by an insert into the complaints table. */
  datatype Payload = Payload(
    userId: string,
    title: string,
    description: string,
    category: string,
    priority: string,
    image: ImageField)

  datatype Request =
    /** select * from complaints [where user_id = owner] order by created_at desc */
    | SelectComplaints(owner: Option<string>)
    /** select username, avatar_url, full_name from profiles where id = userId (single) */
    | SelectProfile(userId: string)
    | InsertComplaint(payload: Payload)
    /** update complaints set patch where id = id, returning the row */
    | UpdateComplaint(id: string, patch: map<string, string>)
    /** delete from complaints where id = id [and user_id = owner] */
    | DeleteComplaint(id: string, owner: Option<string>)
    /** storage upload of one object */
    | UploadObject(bucket: string, path: string)
    | CreateSignedUrl(bucket: string, path: string, seconds: nat)
    | GetPublicUrl(bucket: string, path: string)
    /** the image-upload helper's upload into `bucket` under `<userId>/<folder>/` */
    | UploadImage(folder: string, userId: string, bucket: string)

  /** Whether a request writes a complaint row. */
  predicate IsInsert(r: Request)
  {
    r.InsertComplaint?
  }
}
