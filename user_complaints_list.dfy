/** The list of the signed-in user's own complaints: the display rules for
    one complaint card, the choice of what the list shows, and the view
    state (loaded rows, loading flag, error, expanded card, pending delete)
    with the handlers that change it. */
module ComplaintList {
  import opened Wrappers
  import opened Gateway
  import opened ComplaintModel
  import Seqs

  /** Descriptions longer than this many characters are collapsed. */
  const TruncateAt := 120
  const Ellipsis := "..."

  datatype StatusIcon = CheckCircleIcon | NoIcon | AlertCircleIcon | ClockIcon
  datatype StatusConfig = StatusConfig(icon: StatusIcon, color: string, caption: string)
  datatype PriorityConfig = PriorityConfig(emoji: string, color: string)

  const PendingConfig := StatusConfig(ClockIcon, "#00d4ff", "Pending")
  const MediumConfig := PriorityConfig("\U{26A1}", "#ffaa00")

  /** `getStatusConfig`: the badge for a status; an unknown status is shown
      as pending. */
  function StatusConfigOf(status: string): (r: StatusConfig)
    ensures status !in {"resolved", "rejected", "reviewed"} ==> r == PendingConfig
    ensures r.caption == "Resolved" <==> status == "resolved"
    ensures r.caption == "Rejected" <==> status == "rejected"
    ensures r.caption == "Reviewed" <==> status == "reviewed"
    ensures r.icon == NoIcon <==> status == "rejected"
  {
    match status
    case "resolved" => StatusConfig(CheckCircleIcon, "#00ff88", "Resolved")
    case "rejected" => StatusConfig(NoIcon, "#ff4466", "Rejected")
    case "reviewed" => StatusConfig(AlertCircleIcon, "#ffaa00", "Reviewed")
    case _ => PendingConfig
  }

  /** `getPriorityConfig`: the badge for a priority; an unknown priority is
      shown as medium. */
  function PriorityConfigOf(priority: string): (r: PriorityConfig)
    ensures priority !in {"high", "low"} ==> r == MediumConfig
    ensures r.emoji == "\U{1F525}" <==> priority == "high"
    ensures r.emoji == "\U{1F33F}" <==> priority == "low"
  {
    match priority
    case "high" => PriorityConfig("\U{1F525}", "#ff4466")
    case "low" => PriorityConfig("\U{1F33F}", "#00ff88")
    case _ => MediumConfig
  }

  /** `complaint.description && complaint.description.length > 120` */
  predicate HasLongDescription(d: string)
  {
    |d| > TruncateAt
  }

  /** The description text a card shows. */
  function DisplayedDescription(d: string, expanded: bool): (r: string)
    ensures !HasLongDescription(d) || expanded ==> r == d
    ensures HasLongDescription(d) && !expanded ==>
      |r| == TruncateAt + |Ellipsis| && r[..TruncateAt] == d[..TruncateAt] && r[TruncateAt..] == Ellipsis
  {
    if HasLongDescription(d) && !expanded then d[..TruncateAt] + Ellipsis else d
  }

  /** A collapsed 150-character description shows its first 120 characters
      and an ellipsis, and the expanded one shows all 150. */
  lemma TruncationOf150(d: string)
    requires |d| == 150
    ensures DisplayedDescription(d, false) == d[..120] + "..."
    ensures DisplayedDescription(d, true) == d
  {
  }

  /** Edit and Delete are live unless the raw status is resolved or rejected. */
  predicate ActionsEnabled(status: string)
  {
    status != "resolved" && status != "rejected"
  }

  /** The enable rule agrees with the badge: actions are live exactly when
      the badge reads neither Resolved nor Rejected, so an unknown status
      (shown as Pending) keeps them live. */
  lemma ActionsFollowBadge(status: string)
    ensures ActionsEnabled(status) <==> StatusConfigOf(status).caption !in {"Resolved", "Rejected"}
    ensures status !in {"pending", "reviewed", "resolved", "rejected"} ==> ActionsEnabled(status)
  {
  }

  datatype Stats = Stats(total: nat, pending: nat, resolved: nat)

  /** The header counts: all rows, rows with status `pending`, rows with
      status `resolved`. */
  function StatsOf(cs: seq<Complaint>): (r: Stats)
    ensures r.total == |cs|
    ensures r.pending + r.resolved <= r.total
    ensures r.pending == Seqs.Count(cs, (c: Complaint) => c.status == "pending")
    ensures r.resolved == Seqs.Count(cs, (c: Complaint) => c.status == "resolved")
  {
    Seqs.CountDisjoint(cs, (c: Complaint) => c.status == "pending", (c: Complaint) => c.status == "resolved");
    Stats(|cs|,
          Seqs.Count(cs, (c: Complaint) => c.status == "pending"),
          Seqs.Count(cs, (c: Complaint) => c.status == "resolved"))
  }

  /** A JavaScript value used as a condition: a missing or empty string is false. */
  predicate Truthy(s: Option<string>)
  {
    s.Some? && s.value != ""
  }

  /** What one complaint card shows. */
  datatype Card = Card(
    id: string,
    title: string,
    category: string,
    priority: PriorityConfig,
    status: StatusConfig,
    description: string,
    expandable: bool,
    expanded: bool,
    image: Option<string>,
    actionsEnabled: bool)

  function CardOf(c: Complaint, selected: Option<string>): Card
  {
    var expanded := selected == Some(c.id);
    Card(c.id, c.title, c.category, PriorityConfigOf(c.priority), StatusConfigOf(c.status),
         DisplayedDescription(c.description, expanded), HasLongDescription(c.description), expanded,
         if Truthy(c.imageUrl) then c.imageUrl else None,
         ActionsEnabled(c.status))
  }

  /** What the list shows, in order of precedence. */
  datatype Screen =
    | Spinner
    | ErrorPanel(message: string)
    | EmptyNotice
    | Grid(stats: Stats, cards: seq<Card>, confirmOpen: bool)

  function ScreenOf(loading: bool, error: Option<string>, cs: seq<Complaint>,
                    selected: Option<string>, pendingDelete: Option<string>): Screen
  {
    if loading then Spinner
    else if Truthy(error) then ErrorPanel(error.value)
    else if cs == [] then EmptyNotice
    else Grid(StatsOf(cs), seq(|cs|, i requires 0 <= i < |cs| => CardOf(cs[i], selected)), Truthy(pendingDelete))
  }

  /** The spinner wins over everything, then a truthy error, then the empty
      notice. The grid shows one card per complaint in list order, each with
      its own display rules; at most one id is expanded, the one selected, and
      only a long description is ever shortened. The delete confirmation is
      only ever open over the grid. */
  lemma {:induction false} GridSpec(loading: bool, error: Option<string>, cs: seq<Complaint>,
                                    selected: Option<string>, pendingDelete: Option<string>)
    ensures loading ==> ScreenOf(loading, error, cs, selected, pendingDelete) == Spinner
    ensures !loading && Truthy(error) ==> ScreenOf(loading, error, cs, selected, pendingDelete) == ErrorPanel(error.value)
    ensures !loading && !Truthy(error) && cs == [] ==> ScreenOf(loading, error, cs, selected, pendingDelete) == EmptyNotice
    ensures ScreenOf(loading, error, cs, selected, pendingDelete).Grid? <==> !loading && !Truthy(error) && cs != []
    ensures var s := ScreenOf(loading, error, cs, selected, pendingDelete);
      s.Grid? ==>
        && |s.cards| == |cs|
        && s.stats.pending + s.stats.resolved <= s.stats.total == |cs|
        && s.confirmOpen == Truthy(pendingDelete)
        && (forall i :: 0 <= i < |cs| ==> s.cards[i].id == cs[i].id)
        && (forall i :: 0 <= i < |cs| ==> s.cards[i].actionsEnabled == ActionsEnabled(cs[i].status))
        && (forall i :: 0 <= i < |cs| && s.cards[i].expanded ==> selected == Some(cs[i].id))
        && (forall i :: 0 <= i < |cs| && s.cards[i].description != cs[i].description ==>
              HasLongDescription(cs[i].description) && !s.cards[i].expanded)
  {
  }

  class UserComplaintsList {
    const userId: string
    var complaints: seq<Complaint>
    var loading: bool
    var error: Option<string>
    /** `selectedComplaint`: id of the expanded card, if any. */
    var selected: Option<string>
    /** `showDeleteConfirm`: id awaiting delete confirmation, if any. */
    var pendingDelete: Option<string>
    var mounted: bool

    constructor (userId: string)
      ensures this.userId == userId
      ensures complaints == [] && loading && error == None
      ensures selected == None && pendingDelete == None && mounted
    {
      this.userId := userId;
      complaints := [];
      loading := true;
      error := None;
      selected := None;
      pendingDelete := None;
      mounted := true;
    }

    function Screen(): Screen
      reads this
    {
      ScreenOf(loading, error, complaints, selected, pendingDelete)
    }

    /** The state a completed load leaves behind, given the rows before it. */
    predicate LoadedFrom(fetched: Outcome<Option<seq<Complaint>>>, before: seq<Complaint>)
      reads this
    {
      && mounted && !loading
      && (fetched.Ok? ==> complaints == OrEmpty(fetched.value) && error == None)
      && (fetched.Err? ==> complaints == before && error == Some(fetched.msg))
    }

    /** The component is torn down; later guarded updates are dropped. */
    method Unmount()
      modifies this
      ensures !mounted
      ensures complaints == old(complaints) && loading == old(loading) && error == old(error)
      ensures selected == old(selected) && pendingDelete == old(pendingDelete)
    {
      mounted := false;
    }

    /** `loadUserComplaints`: fetch this user's complaints, newest first, and
        replace the list. `teardown` says whether the component was torn
        down while the query was in flight. */
    method LoadUserComplaints(fetched: Outcome<Option<seq<Complaint>>>, teardown: bool)
      returns (sent: seq<Request>)
      modifies this
      ensures sent == [SelectComplaints(Some(userId))]
      ensures mounted == (old(mounted) && !teardown)
      ensures selected == old(selected) && pendingDelete == old(pendingDelete)
      ensures !old(mounted) ==>
        complaints == old(complaints) && loading == old(loading) && error == old(error)
      ensures old(mounted) && teardown ==>
        complaints == old(complaints) && loading && error == None
      ensures old(mounted) && !teardown ==> !loading
      ensures old(mounted) && !teardown && fetched.Ok? ==>
        complaints == OrEmpty(fetched.value) && error == None
      ensures old(mounted) && !teardown && fetched.Err? ==>
        complaints == old(complaints) && error == Some(fetched.msg)
      ensures old(mounted) && !teardown ==> LoadedFrom(fetched, old(complaints))
    {
      if mounted {
        loading := true;
        error := None;
      }
      sent := [SelectComplaints(Some(userId))];
      if teardown {
        mounted := false;
      }
      match fetched {
        case Ok(data) =>
          if mounted {
            complaints := OrEmpty(data);
          }
        case Err(msg) =>
          if mounted {
            error := Some(msg);
          }
      }
      if mounted {
        loading := false;
      }
    }

    /** The mount effect: load only when there is a user id. */
    method OnMount(fetched: Outcome<Option<seq<Complaint>>>, teardown: bool)
      returns (sent: seq<Request>)
      modifies this
      ensures userId == "" ==>
        && sent == []
        && complaints == old(complaints) && loading == old(loading) && error == old(error)
        && mounted == old(mounted)
      ensures userId != "" ==> sent == [SelectComplaints(Some(userId))]
      ensures userId != "" && old(mounted) && !teardown ==> LoadedFrom(fetched, old(complaints))
      ensures userId != "" && old(mounted) && teardown ==>
        && complaints == old(complaints) && loading && error == None
        && !mounted
      ensures userId != "" && !old(mounted) ==>
        && complaints == old(complaints) && loading == old(loading) && error == old(error)
        && !mounted
      ensures selected == old(selected) && pendingDelete == old(pendingDelete)
    {
      sent := [];
      if userId != "" {
        sent := LoadUserComplaints(fetched, teardown);
      }
    }

    /** The error panel's "Try Again" button: the same load, if still mounted. */
    method Retry(fetched: Outcome<Option<seq<Complaint>>>, teardown: bool)
      returns (sent: seq<Request>)
      modifies this
      ensures !old(mounted) ==>
        && sent == []
        && complaints == old(complaints) && loading == old(loading) && error == old(error)
        && !mounted
      ensures old(mounted) ==> sent == [SelectComplaints(Some(userId))]
      ensures old(mounted) && !teardown ==> LoadedFrom(fetched, old(complaints))
      ensures old(mounted) && teardown ==>
        && complaints == old(complaints) && loading && error == None
        && !mounted
      ensures selected == old(selected) && pendingDelete == old(pendingDelete)
    {
      sent := [];
      if mounted {
        sent := LoadUserComplaints(fetched, teardown);
      }
    }

    /** `handleDeleteComplaint`: delete the row with this id owned by this
        user, then drop it from the list and close the confirmation. */
    method HandleDeleteComplaint(id: string, deleted: Status, teardown: bool)
      returns (sent: seq<Request>)
      modifies this
      ensures sent == [DeleteComplaint(id, Some(userId))]
      ensures mounted == (old(mounted) && !teardown)
      ensures loading == old(loading) && selected == old(selected)
      ensures !mounted ==>
        complaints == old(complaints) && error == old(error) && pendingDelete == old(pendingDelete)
      ensures mounted && deleted.Done? ==>
        complaints == RemoveById(old(complaints), id) && pendingDelete == None && error == old(error)
      ensures mounted && deleted.Failed? ==>
        complaints == old(complaints) && pendingDelete == old(pendingDelete) && error == Some(deleted.msg)
    {
      sent := [DeleteComplaint(id, Some(userId))];
      if teardown {
        mounted := false;
      }
      if mounted {
        match deleted {
          case Done =>
            complaints := RemoveById(complaints, id);
            pendingDelete := None;
          case Failed(msg) =>
            error := Some(msg);
        }
      }
    }

    /** `confirmDelete`: a card's Delete button opens the confirmation. */
    method ConfirmDelete(id: string) returns (sent: seq<Request>)
      modifies this
      ensures sent == []
      ensures pendingDelete == Some(id)
      ensures complaints == old(complaints) && loading == old(loading) && error == old(error)
      ensures selected == old(selected) && mounted == old(mounted)
    {
      sent := [];
      pendingDelete := Some(id);
    }

    /** `cancelDelete`: the Cancel button or a click on the overlay. */
    method CancelDelete() returns (sent: seq<Request>)
      modifies this
      ensures sent == []
      ensures pendingDelete == None
      ensures complaints == old(complaints) && loading == old(loading) && error == old(error)
      ensures selected == old(selected) && mounted == old(mounted)
    {
      sent := [];
      pendingDelete := None;
    }

    /** The confirmation's Delete button: delete the pending id. */
    method DeleteConfirmed(deleted: Status, teardown: bool) returns (sent: seq<Request>)
      requires Screen().Grid? && Screen().confirmOpen
      modifies this
      ensures sent == [DeleteComplaint(old(pendingDelete).value, Some(userId))]
      ensures mounted == (old(mounted) && !teardown)
      ensures loading == old(loading) && selected == old(selected)
      ensures !mounted ==>
        complaints == old(complaints) && error == old(error) && pendingDelete == old(pendingDelete)
      ensures mounted && deleted.Done? ==>
        && complaints == RemoveById(old(complaints), old(pendingDelete).value)
        && pendingDelete == None && error == old(error)
      ensures deleted.Failed? ==> complaints == old(complaints) && pendingDelete == old(pendingDelete)
      ensures mounted && deleted.Failed? ==> error == Some(deleted.msg)
    {
      sent := HandleDeleteComplaint(pendingDelete.value, deleted, teardown);
    }

    /** A click on a card's description or its Show More / Show Less button:
        only a long description toggles, and expanding one card collapses any
        other. */
    method ToggleExpand(c: Complaint)
      modifies this
      ensures !HasLongDescription(c.description) ==> selected == old(selected)
      ensures HasLongDescription(c.description) ==>
        selected == if old(selected) == Some(c.id) then None else Some(c.id)
      ensures complaints == old(complaints) && loading == old(loading) && error == old(error)
      ensures pendingDelete == old(pendingDelete) && mounted == old(mounted)
    {
      if HasLongDescription(c.description) {
        selected := if selected == Some(c.id) then None else Some(c.id);
      }
    }
  }

  /** A client of the list: after a failed delete the error panel replaces
      the grid, and a successful retry brings the grid back with the
      confirmation for the same id still open. */
  method FailedDeleteThenRetry(userId: string, id: string, rows: seq<Complaint>, msg: string)
    requires userId != "" && id != "" && msg != "" && rows != []
  {
    var view := new UserComplaintsList(userId);
    var sent := view.OnMount(Ok(Some(rows)), false);
    assert view.Screen().Grid? && !view.Screen().confirmOpen;
    sent := view.ConfirmDelete(id);
    assert view.Screen().Grid? && view.Screen().confirmOpen;
    sent := view.DeleteConfirmed(Failed(msg), false);
    assert sent == [DeleteComplaint(id, Some(userId))];
    assert view.Screen() == ErrorPanel(msg);
    sent := view.Retry(Ok(Some(rows)), false);
    assert view.Screen().Grid? && view.Screen().confirmOpen && view.pendingDelete == Some(id);
  }
}
