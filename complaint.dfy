/** The complaint record and the list transforms that the complaint cache and
    the complaint list apply to their copy of the complaints table. */
module ComplaintModel {
  import opened Wrappers
  import Seqs

  /** Profile summary joined in for administrators. */
  datatype Profile = Profile(username: string, avatarUrl: string, fullName: string)

  /** A row of the complaints table. `status` and `priority` stay strings
      because the display rules give unknown values a default. An empty
      `userId` stands for a missing (falsy) `user_id`. */
  datatype Complaint = Complaint(
    id: string,
    userId: string,
    title: string,
    description: string,
    category: string,
    priority: string,
    status: string,
    imageUrl: Option<string>,
    user: Option<Profile>)

  /** A file picked in the browser. */
  datatype ImageFile = ImageFile(name: string, mimeType: string, size: nat)

  /** `data || []`: a query result that came back as `null` reads as empty. */
  function OrEmpty(data: Option<seq<Complaint>>): (r: seq<Complaint>)
    ensures data.Some? ==> r == data.value
    ensures data.None? ==> r == []
  {
    if data.Some? then data.value else []
  }

  /** `list.filter(c => c.id !== id)`. */
  function RemoveById(cs: seq<Complaint>, id: string): seq<Complaint>
  {
    Seqs.Filter(cs, (c: Complaint) => c.id != id)
  }

  /** Removing by id keeps exactly the entries with another id, in their
      order, and drops as many entries as carry that id. */
  lemma RemoveByIdSpec(cs: seq<Complaint>, id: string)
    ensures Seqs.IsSubsequence(RemoveById(cs, id), cs)
    ensures forall c :: c in RemoveById(cs, id) <==> c in cs && c.id != id
    ensures |RemoveById(cs, id)| + Seqs.Count(cs, (c: Complaint) => c.id == id) == |cs|
  {
    Seqs.FilterSpec(cs, (c: Complaint) => c.id != id);
    Seqs.CountSplit(cs, (c: Complaint) => c.id == id, (c: Complaint) => c.id != id);
  }

  /** `list.map(c => c.id === id ? row : c)`. */
  function ReplaceById(cs: seq<Complaint>, id: string, row: Complaint): seq<Complaint>
  {
    if cs == [] then []
    else [if cs[0].id == id then row else cs[0]] + ReplaceById(cs[1..], id, row)
  }

  /** Replacing keeps the length and order: entries with that id become
      `row`, every other entry stays where it was. */
  lemma {:induction false} ReplaceByIdSpec(cs: seq<Complaint>, id: string, row: Complaint)
    ensures |ReplaceById(cs, id, row)| == |cs|
    ensures forall i :: 0 <= i < |cs| ==>
      ReplaceById(cs, id, row)[i] == if cs[i].id == id then row else cs[i]
  {
    if cs != [] {
      ReplaceByIdSpec(cs[1..], id, row);
      forall i | 0 < i < |cs|
        ensures ReplaceById(cs, id, row)[i] == if cs[i].id == id then row else cs[i]
      {
        assert ReplaceById(cs, id, row)[i] == ReplaceById(cs[1..], id, row)[i - 1];
      }
    }
  }

  /** `{ ...row, user: profile }` when the row has a submitter and the profile
      lookup succeeded, `{ ...row, user: null }` otherwise. */
  function AttachProfile(row: Complaint, lookup: Outcome<Profile>): (r: Complaint)
    ensures r.(user := None) == row.(user := None)
    ensures r.user.Some? <==> row.userId != "" && lookup.Ok?
    ensures r.user.Some? ==> r.user == Some(lookup.value)
  {
    if row.userId != "" && lookup.Ok? then row.(user := Some(lookup.value))
    else row.(user := None)
  }

  /** The per-row profile join of the administrators' load, one lookup
      answer per row. */
  function JoinProfiles(rows: seq<Complaint>, lookups: seq<Outcome<Profile>>): seq<Complaint>
    requires |lookups| == |rows|
  {
    if rows == [] then []
    else [AttachProfile(rows[0], lookups[0])] + JoinProfiles(rows[1..], lookups[1..])
  }

  /** The join keeps the rows' number and order and changes only `user`. */
  lemma {:induction false} JoinProfilesSpec(rows: seq<Complaint>, lookups: seq<Outcome<Profile>>)
    requires |lookups| == |rows|
    ensures |JoinProfiles(rows, lookups)| == |rows|
    ensures forall i :: 0 <= i < |rows| ==> JoinProfiles(rows, lookups)[i] == AttachProfile(rows[i], lookups[i])
  {
    if rows != [] {
      JoinProfilesSpec(rows[1..], lookups[1..]);
      forall i | 0 < i < |rows|
        ensures JoinProfiles(rows, lookups)[i] == AttachProfile(rows[i], lookups[i])
      {
        assert JoinProfiles(rows, lookups)[i] == JoinProfiles(rows[1..], lookups[1..])[i - 1];
      }
    }
  }
}
