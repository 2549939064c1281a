/** The download screen: `handleDownload` pays a positive-reward task once per
    link, recording links in the same `completedSocialTasks` list as the social
    task screen. */
module DownloadPage {
  import opened Account
  import TasksPage

  datatype DownloadTask = DownloadTask(
    name: string, link: string, reward: real, isComingSoon: bool, isWeb: bool)

  /** The screen's fixed task list. */
  const DownloadTasks: seq<DownloadTask> := [
    DownloadTask("Visit Web App", "https://tokenearin-webapp.pages.dev", 100.0, false, true),
    DownloadTask("Telegram Mini app", "https://t.me/tokenearin_bot", 120.0, false, true),
    DownloadTask("Download APK", "https://example.com/app-apk", 150.0, false, false),
    DownloadTask("APPS COMING SOON", "#", 0.0, true, false)
  ]

  /** Milliseconds waited after opening the link: 5 s for web and bot tasks, 8 s otherwise. */
  function WaitTime(task: DownloadTask): (ms: int)
    ensures ms == 5000 <==> task.isWeb
    ensures ms == 8000 <==> !task.isWeb
  {
    if task.isWeb then 5000 else 8000
  }

  /** The list view's "collected" mark. */
  predicate IsDone(u: UserData, task: DownloadTask) {
    task.link in u.completedSocialTasks
  }

  /** The task's button is disabled while that task runs (`activeTask`) or when it is coming soon. */
  predicate ButtonDisabled(task: DownloadTask, index: nat, activeTask: Option<nat>) {
    activeTask == Some(index) || task.isComingSoon
  }

  /** The guard of the crediting branch. */
  predicate Pays(u: UserData, task: DownloadTask) {
    !task.isComingSoon && !IsDone(u, task) && task.reward > 0.0
  }

  /** The stored state after `handleDownload`: store call 0 is the balance
      update, store call 1 the `arrayUnion` into `completedSocialTasks`. */
  function DownloadOutcome(u: UserData, task: DownloadTask, backend: Backend): UserData {
    if !Pays(u, task) || !backend.Completes(0) then u
    else
      var credited := Credited(u, task.reward, TaskComplete, task.name);
      if backend.Completes(1) then credited.(completedSocialTasks := ArrayUnion(credited.completedSocialTasks, task.link))
      else credited
  }

  /** `handleDownload` on the stored user document. */
  method HandleDownload(doc: UserDoc, task: DownloadTask, backend: Backend)
    modifies doc
    ensures doc.Data() == DownloadOutcome(old(doc.Data()), task, backend)
  {
    if task.isComingSoon { return; }
    var history := doc.completedSocialTasks;
    var alreadyDone := task.link in history;
    if !alreadyDone && task.reward > 0.0 {
      if !backend.Completes(0) { return; }
      doc.UpdateBalance(task.reward, TaskComplete, task.name);
      if !backend.Completes(1) { return; }
      doc.AddToHistory(CompletedSocialTasks, task.link);
    }
  }

  /** A coming-soon task changes nothing. */
  lemma ComingSoonChangesNothing(u: UserData, task: DownloadTask, backend: Backend)
    requires task.isComingSoon
    ensures DownloadOutcome(u, task, backend) == u
  {
  }

  /** With a reliable store the balance moves, and the link is recorded, exactly
      when the task is available, not yet done and has a positive reward. */
  lemma PaidIffNewAndPositive(u: UserData, task: DownloadTask)
    ensures var v := DownloadOutcome(u, task, Reliable);
      && (Pays(u, task) ==> v.balance == u.balance + task.reward)
      && (!Pays(u, task) ==> v == u)
      && (Pays(u, task) ==> v.completedSocialTasks == u.completedSocialTasks + [task.link])
      && v.visitedWebsitesToday == u.visitedWebsitesToday
  {
  }

  /** A zero- or negative-reward task is never paid nor recorded. */
  lemma NonPositiveRewardNeverRecorded(u: UserData, task: DownloadTask, backend: Backend)
    requires task.reward <= 0.0
    ensures DownloadOutcome(u, task, backend) == u
    ensures IsDone(u, task) == IsDone(DownloadOutcome(u, task, backend), task)
  {
  }

  /** Running the handler twice with the same task credits at most once. */
  lemma PaysOnce(u: UserData, task: DownloadTask, backend: Backend)
    ensures var v := DownloadOutcome(DownloadOutcome(u, task, Reliable), task, backend);
      v.balance == u.balance + (if Pays(u, task) then task.reward else 0.0)
  {
  }

  /** The list only grows. */
  lemma HistoryOnlyGrows(u: UserData, task: DownloadTask, backend: Backend)
    ensures u.completedSocialTasks <= DownloadOutcome(u, task, backend).completedSocialTasks
  {
  }

  lemma KeepsLedgerConsistent(u: UserData, task: DownloadTask, backend: Backend)
    requires LedgerConsistent(u)
    ensures LedgerConsistent(DownloadOutcome(u, task, backend))
  {
    if Pays(u, task) && backend.Completes(0) {
      CreditedKeepsLedgerConsistent(u, task.reward, TaskComplete, task.name);
    }
  }

  /** After a run the list view marks the task collected exactly when it was
      collected before or it paid and the link was recorded. */
  lemma CollectedMarkAfterDownload(u: UserData, task: DownloadTask, backend: Backend)
    ensures IsDone(DownloadOutcome(u, task, backend), task) <==>
              IsDone(u, task) || (Pays(u, task) && backend.Completes(1))
  {
  }

  /** A coming-soon task's button is always disabled; any other task's button
      is disabled exactly while that task runs. */
  lemma DisabledWhileRunningOrComingSoon(task: DownloadTask, index: nat, activeTask: Option<nat>)
    ensures task.isComingSoon ==> ButtonDisabled(task, index, activeTask)
    ensures !task.isComingSoon ==> (ButtonDisabled(task, index, activeTask) <==> activeTask == Some(index))
  {
  }

  /** Only the coming-soon entry of the fixed list is disabled when no task runs,
      and it is the only entry that could never pay. */
  lemma FixedListDisabledEntries(i: nat)
    requires i < |DownloadTasks|
    ensures ButtonDisabled(DownloadTasks[i], i, None) <==> i == 3
    ensures DownloadTasks[i].reward > 0.0 <==> i != 3
  {
  }

  /** The download screen and the social task screen share `completedSocialTasks`:
      a link completed on either screen is not paid again on the other. */
  lemma SharedWithSocialTasks(u: UserData, social: TasksPage.Task, task: DownloadTask, backend: Backend)
    requires social.link == task.link
    ensures var v := TasksPage.TaskOutcome(u, TasksPage.Social, social, Reliable);
      DownloadOutcome(v, task, backend) == v
    ensures var w := DownloadOutcome(u, task, Reliable);
      Pays(u, task) ==> TasksPage.TaskOutcome(w, TasksPage.Social, social, backend) == w
  {
  }
}
