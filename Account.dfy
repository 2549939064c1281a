/** The user document every earning and spending screen reads and writes, the
    reward ledger beside it, and the two store primitives the screens use on it:
    `UserService.updateBalance` and Firestore's `arrayUnion`. */
module Account {

  datatype Option<+T> = None | Some(value: T)

  /** The ledger labels written by the screens of this model. */
  datatype LedgerKind = AdReward | TaskComplete | MiningClaim | Withdrawal

  datatype LedgerEntry = LedgerEntry(amount: real, kind: LedgerKind, description: string)

  datatype WithdrawalStatus = Pending | Approved | Rejected | Completed

  /** A document of the `withdrawals` collection; `timestamp` is the server
      time in seconds, `None` while the server has not assigned it. */
  datatype WithdrawalRequest = WithdrawalRequest(
    amount: real, methodName: string, details: string,
    status: WithdrawalStatus, timestamp: Option<int>)

  /** The two "already done" link lists of the user document. */
  datatype HistoryField = VisitedWebsitesToday | CompletedSocialTasks

  /** The value of one user's stored state: the user document (a missing list
      is the empty list) together with that user's ledger and withdrawal requests. */
  datatype UserData = UserData(
    balance: real,
    completedSocialTasks: seq<string>,
    visitedWebsitesToday: seq<string>,
    dailyAdCount: nat,
    lastMiningStart: int,
    language: Option<string>,
    photoURL: string,
    ledger: seq<LedgerEntry>,
    withdrawals: seq<WithdrawalRequest>)

  /** How the store behaves during one handler run: every call succeeds, or the
      call numbered `step` (from 0) throws, the earlier ones having succeeded and
      the later ones never being made. */
  datatype Backend = Reliable | FailsAt(step: nat) {
    predicate Completes(i: nat) {
      Reliable? || i < step
    }
  }

  function History(u: UserData, f: HistoryField): seq<string> {
    match f
    case VisitedWebsitesToday => u.visitedWebsitesToday
    case CompletedSocialTasks => u.completedSocialTasks
  }

  function WithHistory(u: UserData, f: HistoryField, h: seq<string>): (v: UserData)
    ensures History(v, f) == h
  {
    match f
    case VisitedWebsitesToday => u.(visitedWebsitesToday := h)
    case CompletedSocialTasks => u.(completedSocialTasks := h)
  }

  predicate NoDuplicates(s: seq<string>) {
    forall i, j :: 0 <= i < j < |s| ==> s[i] != s[j]
  }

  /** Firestore `arrayUnion(x)` on one array field: append `x` unless present. */
  function ArrayUnion(s: seq<string>, x: string): (r: seq<string>)
    ensures s <= r
    ensures forall y :: y in r <==> y in s || y == x
    ensures NoDuplicates(s) ==> NoDuplicates(r)
  {
    if x in s then s else s + [x]
  }

  /** The sum of the ledger's amounts. */
  function LedgerTotal(ledger: seq<LedgerEntry>): real {
    if ledger == [] then 0.0 else ledger[0].amount + LedgerTotal(ledger[1..])
  }

  lemma {:induction false} LedgerTotalAppend(ledger: seq<LedgerEntry>, e: LedgerEntry)
    ensures LedgerTotal(ledger + [e]) == LedgerTotal(ledger) + e.amount
  {
    if ledger != [] {
      assert (ledger + [e])[1..] == ledger[1..] + [e];
      LedgerTotalAppend(ledger[1..], e);
    }
  }

  /** The balance is the sum of the ledger. */
  predicate LedgerConsistent(u: UserData) {
    u.balance == LedgerTotal(u.ledger)
  }

  /** `UserService.updateBalance(uid, balance, delta, kind, description)`. Its
      body is not part of this model; this is the contract assumed for it: the
      balance moves by exactly `delta`, exactly one ledger entry recording that
      delta is appended, and nothing else in the user's state changes. */
  function Credited(u: UserData, delta: real, kind: LedgerKind, description: string): (v: UserData)
    ensures v.balance == u.balance + delta
    ensures v.ledger == u.ledger + [LedgerEntry(delta, kind, description)]
    ensures v.(balance := u.balance, ledger := u.ledger) == u
  {
    u.(balance := u.balance + delta, ledger := u.ledger + [LedgerEntry(delta, kind, description)])
  }

  /** A balance update keeps the balance equal to the sum of the ledger. */
  lemma CreditedKeepsLedgerConsistent(u: UserData, delta: real, kind: LedgerKind, description: string)
    requires LedgerConsistent(u)
    ensures LedgerConsistent(Credited(u, delta, kind, description))
  {
    LedgerTotalAppend(u.ledger, LedgerEntry(delta, kind, description));
  }

  /** The stored user document, updated in place by the screens' handlers. */
  class UserDoc {
    var balance: real
    var completedSocialTasks: seq<string>
    var visitedWebsitesToday: seq<string>
    var dailyAdCount: nat
    var lastMiningStart: int
    var language: Option<string>
    var photoURL: string
    var ledger: seq<LedgerEntry>
    var withdrawals: seq<WithdrawalRequest>

    function Data(): UserData
      reads this
    {
      UserData(balance, completedSocialTasks, visitedWebsitesToday, dailyAdCount,
               lastMiningStart, language, photoURL, ledger, withdrawals)
    }

    constructor (d: UserData)
      ensures Data() == d
    {
      balance := d.balance;
      completedSocialTasks := d.completedSocialTasks;
      visitedWebsitesToday := d.visitedWebsitesToday;
      dailyAdCount := d.dailyAdCount;
      lastMiningStart := d.lastMiningStart;
      language := d.language;
      photoURL := d.photoURL;
      ledger := d.ledger;
      withdrawals := d.withdrawals;
    }

    /** `UserService.updateBalance`, with the assumed contract `Credited`. */
    method UpdateBalance(delta: real, kind: LedgerKind, description: string)
      modifies this
      ensures Data() == Credited(old(Data()), delta, kind, description)
    {
      balance := balance + delta;
      ledger := ledger + [LedgerEntry(delta, kind, description)];
    }

    /** `addDoc(withdrawals, request)` for this user. */
    method AddWithdrawal(w: WithdrawalRequest)
      modifies this
      ensures Data() == old(Data()).(withdrawals := old(withdrawals) + [w])
    {
      withdrawals := withdrawals + [w];
    }

    /** `updateDoc(user, { [field]: arrayUnion(link) })` */
    method AddToHistory(f: HistoryField, link: string)
      modifies this
      ensures Data() == WithHistory(old(Data()), f, ArrayUnion(History(old(Data()), f), link))
    {
      match f
      case VisitedWebsitesToday =>
        visitedWebsitesToday := ArrayUnion(visitedWebsitesToday, link);
      case CompletedSocialTasks =>
        completedSocialTasks := ArrayUnion(completedSocialTasks, link);
    }
  }
}
