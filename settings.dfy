/** The settings page of src/pages/Settings.tsx: loading the profile form,
    submitting an issue, and marking notifications as read. The Supabase calls
    are parameters: what the query returned, or how the insert ended. */
module Settings {
  import opened Wrappers
  import opened Seqs
  import opened Strings

  datatype ProfileForm = ProfileForm(displayName: string, bio: string, githubUsername: string, avatarUrl: string)

  /** A row of `profiles`, whose text columns may be null. */
  datatype ProfileRow = ProfileRow(displayName: Option<string>, bio: Option<string>,
                                   githubUsername: Option<string>, avatarUrl: Option<string>)

  /** Line 34 of the load effect: a returned row replaces the form, each null
      column becoming `""`; no row leaves the form as it was. */
  function LoadProfile(form: ProfileForm, data: Option<ProfileRow>): (r: ProfileForm)
    ensures data.None? ==> r == form
    ensures data.Some? ==> r.displayName == OrDefault(data.value.displayName, "")
    ensures data.Some? ==> r.bio == OrDefault(data.value.bio, "")
    ensures data.Some? ==> r.githubUsername == OrDefault(data.value.githubUsername, "")
    ensures data.Some? ==> r.avatarUrl == OrDefault(data.value.avatarUrl, "")
  {
    if data.None? then form
    else
      var p := data.value;
      ProfileForm(OrDefault(p.displayName, ""), OrDefault(p.bio, ""), OrDefault(p.githubUsername, ""),
                  OrDefault(p.avatarUrl, ""))
  }

  /** A loaded profile never depends on the form it replaces, and a column that
      is set and not empty is shown as it is. */
  lemma LoadProfileReplaces(a: ProfileForm, b: ProfileForm, row: ProfileRow)
    ensures LoadProfile(a, Some(row)) == LoadProfile(b, Some(row))
    ensures row.displayName.Some? && row.displayName.value != "" ==>
      LoadProfile(a, Some(row)).displayName == row.displayName.value
    ensures row.displayName.None? ==> LoadProfile(a, Some(row)).displayName == ""
  {
  }

  datatype IssueForm = IssueForm(title: string, description: string, priority: string)

  const EmptyIssueForm := IssueForm("", "", "medium")

  datatype UserIssue = UserIssue(id: string, title: string, description: string, priority: string, status: string)

  /** How the insert of `user_issues` ends. */
  datatype InsertResult = InsertFailed(message: string) | Inserted(row: UserIssue)

  /** The issue list and the form after `handleSubmitIssue`, and whether the
      insert was issued. */
  datatype Submitted = Submitted(issues: seq<UserIssue>, form: IssueForm, inserted: bool)

  /** `handleSubmitIssue` */
  function SubmitIssue(loggedIn: bool, form: IssueForm, issues: seq<UserIssue>, result: InsertResult): (r: Submitted)
    ensures !loggedIn || Trim(form.title) == "" ==> r == Submitted(issues, form, false)
    ensures loggedIn && Trim(form.title) != "" ==> r.inserted
    ensures loggedIn && Trim(form.title) != "" && result.InsertFailed? ==> r.issues == issues && r.form == form
    ensures loggedIn && Trim(form.title) != "" && result.Inserted? ==>
      r.issues == [result.row] + issues && r.form == EmptyIssueForm
  {
    if !loggedIn || Trim(form.title) == "" then Submitted(issues, form, false)
    else if result.InsertFailed? then Submitted(issues, form, true)
    else Submitted([result.row] + issues, EmptyIssueForm, true)
  }

  /** A successful submission adds exactly one issue in front and keeps the
      others in their order; nothing else ever changes the list. */
  lemma SubmitKeepsIssues(loggedIn: bool, form: IssueForm, issues: seq<UserIssue>, result: InsertResult)
    ensures var r := SubmitIssue(loggedIn, form, issues, result).issues;
            r == issues || (|r| == |issues| + 1 && r[1..] == issues && result.Inserted? && r[0] == result.row)
  {
  }

  /** A title made only of whitespace is refused like an empty one. */
  lemma BlankTitleRefused(form: IssueForm, issues: seq<UserIssue>, result: InsertResult)
    requires forall k :: 0 <= k < |form.title| ==> IsWhitespace(form.title[k])
    ensures SubmitIssue(true, form, issues, result) == Submitted(issues, form, false)
  {
  }

  /** The reset form cannot be submitted again. */
  lemma ResetFormRefused(issues: seq<UserIssue>, result: InsertResult)
    ensures !SubmitIssue(true, EmptyIssueForm, issues, result).inserted
  {
    assert Trim(EmptyIssueForm.title) == "";
  }

  datatype UserNotification = UserNotification(id: string, title: string, message: string, read: bool)

  /** `markRead`: the notification with that id is read. */
  function MarkRead(notifications: seq<UserNotification>, id: string): (r: seq<UserNotification>)
    ensures |r| == |notifications|
    ensures forall k :: 0 <= k < |r| && notifications[k].id == id ==> r[k] == notifications[k].(read := true)
    ensures forall k :: 0 <= k < |r| && notifications[k].id != id ==> r[k] == notifications[k]
  {
    MapWhere(notifications, (n: UserNotification) => n.id == id, (n: UserNotification) => n.(read := true))
  }

  predicate IsUnread(n: UserNotification) { !n.read }

  /** Marking as read never adds an unread notification and leaves none with
      that id unread. */
  lemma {:induction false} MarkReadLowersUnread(notifications: seq<UserNotification>, id: string)
    ensures |Filter(MarkRead(notifications, id), IsUnread)| <= |Filter(notifications, IsUnread)|
    ensures forall n :: n in MarkRead(notifications, id) && n.id == id ==> n.read
  {
    if notifications != [] {
      var r := MarkRead(notifications, id);
      MarkReadLowersUnread(notifications[1..], id);
      assert r[1..] == MarkRead(notifications[1..], id);
    }
  }

  /** Marking the same notification twice is the same as once. */
  lemma MarkReadIdempotent(notifications: seq<UserNotification>, id: string)
    ensures MarkRead(MarkRead(notifications, id), id) == MarkRead(notifications, id)
  {
  }

  /** A click on a notification: `!n.read && markRead(n.id)`. Returns the list
      and whether `markRead` ran. */
  function OnClick(notifications: seq<UserNotification>, n: UserNotification): (r: (seq<UserNotification>, bool))
    ensures r.1 <==> !n.read
    ensures n.read ==> r.0 == notifications
    ensures !n.read ==> r.0 == MarkRead(notifications, n.id)
  {
    if !n.read then (MarkRead(notifications, n.id), true) else (notifications, false)
  }

  /** Clicking a notification of the list that was unread makes it read. */
  lemma ClickMarksRead(notifications: seq<UserNotification>, k: nat)
    requires k < |notifications| && !notifications[k].read
    ensures OnClick(notifications, notifications[k]).0[k].read
  {
  }
}
