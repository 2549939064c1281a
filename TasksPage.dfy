/** The website-visit and social-task screens: `handleTask` pays a task's reward
    the first time its link is completed and records the link in the screen's
    history list. */
module TasksPage {
  import opened Account

  /** The screen's `type` prop. */
  datatype PageType = Visit | Social

  /** A configured task; `timer` is the optional visit duration in seconds. */
  datatype Task = Task(name: string, link: string, reward: real, timer: Option<int>)

  /** The history list the guard reads, the handler writes and the list view shows. */
  function Field(page: PageType): HistoryField {
    if page == Visit then VisitedWebsitesToday else CompletedSocialTasks
  }

  /** The list view's "collected" mark: exact membership of the link. */
  predicate IsDone(u: UserData, page: PageType, task: Task) {
    task.link in History(u, Field(page))
  }

  /** Milliseconds waited after opening the link: `(task.timer || 10) * 1000` for
      visits (an absent or zero timer is falsy), 5000 for social tasks. */
  function WaitTime(page: PageType, task: Task): (ms: int)
    ensures page == Social ==> ms == 5000
    ensures page == Visit && (task.timer == None || task.timer == Some(0)) ==> ms == 10000
    ensures page == Visit && task.timer.Some? && task.timer.value != 0 ==> ms == 1000 * task.timer.value
  {
    if page == Social then 5000
    else match task.timer
      case None => 10000
      case Some(t) => if t == 0 then 10000 else t * 1000
  }

  /** The stored state after `handleTask`: store call 0 is the balance update,
      store call 1 the `arrayUnion` of the link into the screen's list. */
  function TaskOutcome(u: UserData, page: PageType, task: Task, backend: Backend): UserData {
    var f := Field(page);
    if task.link in History(u, f) || !backend.Completes(0) then u
    else
      var credited := Credited(u, task.reward, TaskComplete, task.name);
      if backend.Completes(1) then WithHistory(credited, f, ArrayUnion(History(credited, f), task.link))
      else credited
  }

  /** `handleTask` on the stored user document. */
  method HandleTask(doc: UserDoc, page: PageType, task: Task, backend: Backend)
    modifies doc
    ensures doc.Data() == TaskOutcome(old(doc.Data()), page, task, backend)
  {
    var field := Field(page);
    var history := if page == Visit then doc.visitedWebsitesToday else doc.completedSocialTasks;
    var alreadyDone := task.link in history;
    if !alreadyDone {
      if !backend.Completes(0) { return; }
      doc.UpdateBalance(task.reward, TaskComplete, task.name);
      if !backend.Completes(1) { return; }
      doc.AddToHistory(field, task.link);
    }
  }

  /** A link not yet in the screen's list is paid exactly its reward and
      appended to that list; the other list is untouched. */
  lemma NewLinkPaidAndRecorded(u: UserData, page: PageType, task: Task)
    requires !IsDone(u, page, task)
    ensures var v := TaskOutcome(u, page, task, Reliable);
      && v.balance == u.balance + task.reward
      && v.ledger == u.ledger + [LedgerEntry(task.reward, TaskComplete, task.name)]
      && History(v, Field(page)) == History(u, Field(page)) + [task.link]
      && (page == Visit ==> v.completedSocialTasks == u.completedSocialTasks)
      && (page == Social ==> v.visitedWebsitesToday == u.visitedWebsitesToday)
      && IsDone(v, page, task)
  {
  }

  /** A link already in the screen's list changes nothing, whatever the store does. */
  lemma DoneLinkChangesNothing(u: UserData, page: PageType, task: Task, backend: Backend)
    requires IsDone(u, page, task)
    ensures TaskOutcome(u, page, task, backend) == u
  {
  }

  /** Running the handler twice with the same link credits at most once. */
  lemma PaysOnce(u: UserData, page: PageType, task: Task, backend: Backend)
    ensures var v := TaskOutcome(TaskOutcome(u, page, task, Reliable), page, task, backend);
      v.balance == u.balance + (if IsDone(u, page, task) then 0.0 else task.reward)
  {
  }

  /** History lists only grow: both lists keep their old contents as a prefix. */
  lemma HistoriesOnlyGrow(u: UserData, page: PageType, task: Task, backend: Backend)
    ensures var v := TaskOutcome(u, page, task, backend);
      u.completedSocialTasks <= v.completedSocialTasks && u.visitedWebsitesToday <= v.visitedWebsitesToday
  {
  }

  /** Every run keeps the balance equal to the sum of the ledger. */
  lemma KeepsLedgerConsistent(u: UserData, page: PageType, task: Task, backend: Backend)
    requires LedgerConsistent(u)
    ensures LedgerConsistent(TaskOutcome(u, page, task, backend))
  {
    if !IsDone(u, page, task) && backend.Completes(0) {
      CreditedKeepsLedgerConsistent(u, task.reward, TaskComplete, task.name);
    }
  }

  /** If the history write fails after the credit, the link stays unrecorded
      and the next attempt pays the reward a second time. */
  lemma LostRecordPaysAgain(u: UserData, page: PageType, task: Task)
    requires !IsDone(u, page, task)
    ensures var v := TaskOutcome(TaskOutcome(u, page, task, FailsAt(1)), page, task, Reliable);
      v.balance == u.balance + task.reward + task.reward
  {
  }

  /** After a run the list view marks the task collected exactly when it was
      collected before or the link was recorded (the credit and the list write
      both went through); another task's mark changes only when it has the
      same link. */
  lemma CollectedMarkAfterRun(u: UserData, page: PageType, task: Task, backend: Backend, other: Task)
    ensures var v := TaskOutcome(u, page, task, backend);
      && (IsDone(v, page, task) <==> IsDone(u, page, task) || backend.Completes(1))
      && (IsDone(v, page, other) <==> IsDone(u, page, other) || (other.link == task.link && backend.Completes(1)))
  {
    if !IsDone(u, page, task) && backend.Completes(0) {
      var credited := Credited(u, task.reward, TaskComplete, task.name);
      assert History(credited, Field(page)) == History(u, Field(page));
    }
  }

  /** A run on one screen leaves the other screen's marks as they were. */
  lemma OtherScreenUnchanged(u: UserData, page: PageType, task: Task, backend: Backend, other: Task)
    ensures var p := if page == Visit then Social else Visit;
      IsDone(TaskOutcome(u, page, task, backend), p, other) == IsDone(u, p, other)
  {
  }

  /** Done-ness is exact string equality: while a link is collected, the same
      link with a trailing slash is a different task and is paid again. */
  lemma NoLinkNormalisation(u: UserData, page: PageType, task: Task)
    requires task.link in History(u, Field(page))
    requires task.link + "/" !in History(u, Field(page))
    ensures TaskOutcome(u, page, task, Reliable).balance == u.balance
    ensures var other := task.(link := task.link + "/");
      TaskOutcome(u, page, other, Reliable).balance == u.balance + task.reward
  {
  }
}
