/** The administration page of src/pages/Admin.tsx: the open-issue count, the
    notification form and its fan-out to all users, and the issue status update.
    The Supabase calls are left out; what they receive is part of the result. */
module Admin {
  import opened Wrappers
  import opened Seqs

  datatype Issue = Issue(id: string, title: string, status: string)

  predicate IsOpen(i: Issue) { i.status == "open" }
  predicate IsNotOpen(i: Issue) { i.status != "open" }

  /** `(issuesRes.data || []).filter(x => x.status === "open").length` */
  function OpenIssueCount(data: Option<seq<Issue>>): (r: nat)
    ensures data.None? ==> r == 0
    ensures data.Some? ==> r <= |data.value|
    ensures data.Some? ==> r + |Filter(data.value, IsNotOpen)| == |data.value|
  {
    var issues := data.GetOr([]);
    FilterSplitsCount(issues, IsOpen, IsNotOpen);
    |Filter(issues, IsOpen)|
  }

  /** The count over two lists is the sum of their counts. */
  lemma OpenIssueCountConcat(a: seq<Issue>, b: seq<Issue>)
    ensures OpenIssueCount(Some(a + b)) == OpenIssueCount(Some(a)) + OpenIssueCount(Some(b))
  {
    FilterConcat(a, b, IsOpen);
  }

  /** An issue counts exactly when it is open. */
  lemma OpenIssueCountSingle(i: Issue)
    ensures OpenIssueCount(Some([i])) == if i.status == "open" then 1 else 0
  {
    assert [i][1..] == [];
  }

  datatype NotifForm = NotifForm(userId: string, title: string, message: string, kind: string)

  /** The form after sending. */
  const EmptyNotifForm := NotifForm("", "", "", "info")

  datatype Profile = Profile(userId: string)

  /** One row of the `notifications` table. */
  datatype Notification = Notification(userId: string, title: string, message: string, kind: string)

  /** What `sendNotification` does: the rows of each insert it issues, in order,
      and the form it leaves. */
  datatype Sent = Sent(inserts: seq<seq<Notification>>, form: NotifForm)

  function RowFor(form: NotifForm, userId: string): Notification {
    Notification(userId, form.title, form.message, form.kind)
  }

  /** `sendNotification`, with the loaded `users`. */
  function SendNotification(form: NotifForm, users: seq<Profile>): (r: Sent)
    ensures form.title == "" || form.message == "" ==> r == Sent([], form)
    ensures form.title != "" && form.message != "" ==> r.form == EmptyNotifForm
    ensures form.title != "" && form.message != "" && form.userId != "" ==>
      r.inserts == [[RowFor(form, form.userId)]]
    ensures form.title != "" && form.message != "" && form.userId == "" && users == [] ==>
      r.inserts == []
    ensures form.title != "" && form.message != "" && form.userId == "" && users != [] ==>
      |r.inserts| == 1 && |r.inserts[0]| == |users| &&
      forall k :: 0 <= k < |users| ==> r.inserts[0][k] == RowFor(form, users[k].userId)
  {
    if form.title == "" || form.message == "" then Sent([], form)
    else if form.userId != "" then Sent([[RowFor(form, form.userId)]], EmptyNotifForm)
    else
      var rows := Map(users, (u: Profile) => RowFor(form, u.userId));
      Sent(if |rows| > 0 then [rows] else [], EmptyNotifForm)
  }

  /** A broadcast puts the same title, message and type in every row and
      addresses each user once per profile, in the order of the list. */
  lemma BroadcastRows(form: NotifForm, users: seq<Profile>)
    requires form.title != "" && form.message != "" && form.userId == ""
    ensures forall batch, n :: batch in SendNotification(form, users).inserts && n in batch ==>
      n.title == form.title && n.message == form.message && n.kind == form.kind
    ensures forall batch :: batch in SendNotification(form, users).inserts ==>
      Map(batch, (n: Notification) => n.userId) == Map(users, (u: Profile) => u.userId)
  {
  }

  /** Sending again from the reset form does nothing. */
  lemma SendTwiceIsNoop(form: NotifForm, users: seq<Profile>)
    ensures var after := SendNotification(form, users).form;
            SendNotification(after, users) == Sent([], after)
  {
  }

  /** `updateIssueStatus`: the issue with that id gets the new status. */
  function UpdateIssueStatus(issues: seq<Issue>, id: string, status: string): (r: seq<Issue>)
    ensures |r| == |issues|
    ensures forall k :: 0 <= k < |issues| && issues[k].id == id ==> r[k] == issues[k].(status := status)
    ensures forall k :: 0 <= k < |issues| && issues[k].id != id ==> r[k] == issues[k]
  {
    MapWhere(issues, (i: Issue) => i.id == id, (i: Issue) => i.(status := status))
  }

  /** Applying the same update twice is the same as applying it once. */
  lemma UpdateIssueStatusIdempotent(issues: seq<Issue>, id: string, status: string)
    ensures UpdateIssueStatus(UpdateIssueStatus(issues, id, status), id, status)
         == UpdateIssueStatus(issues, id, status)
  {
  }

  /** An id that no issue has changes nothing. */
  lemma UpdateUnknownId(issues: seq<Issue>, id: string, status: string)
    requires forall k :: 0 <= k < |issues| ==> issues[k].id != id
    ensures UpdateIssueStatus(issues, id, status) == issues
  {
  }

  /** Closing an issue never raises the open count. */
  lemma {:induction false} CloseLowersOpenCount(issues: seq<Issue>, id: string, status: string)
    requires status != "open"
    ensures OpenIssueCount(Some(UpdateIssueStatus(issues, id, status))) <= OpenIssueCount(Some(issues))
  {
    if issues != [] {
      var r := UpdateIssueStatus(issues, id, status);
      CloseLowersOpenCount(issues[1..], id, status);
      assert r[1..] == UpdateIssueStatus(issues[1..], id, status);
      OpenIssueCountConcat([issues[0]], issues[1..]);
      OpenIssueCountConcat([r[0]], r[1..]);
      assert issues == [issues[0]] + issues[1..];
      assert r == [r[0]] + r[1..];
      OpenIssueCountSingle(issues[0]);
      OpenIssueCountSingle(r[0]);
    }
  }
}
