/** The wallet ledger of the movie wall app (app.js) as values: the global
    `state` record, the transaction log, and one pure transition function per
    operation that changes them. The class in module App performs the same
    transitions in place and is proved against these functions. Amounts are
    JavaScript numbers in the source and integers here. */
module Ledger {
  import opened Text

  datatype Option<T> = None | Some(value: T)

  /** The four transaction kinds; `earning` is only ever logged by a movie reward. */
  datatype TxType = Deposit | Withdraw | Transfer | Earning

  datatype Status = Pending | Completed | Failed

  /** One log entry. `kind` is the form's transaction type at the time of the
      entry, which is `null` (None) if no form was ever opened. */
  datatype Transaction = Transaction(
    kind: Option<TxType>,
    bank: string,
    accountName: string,
    accountNumber: string,
    amount: int,
    status: Status,
    details: string,
    timestamp: string)

  /** The global `state` record, without the synthetic `deviceInfo`. */
  datatype Record = Record(
    isLoggedIn: bool,
    isAdmin: bool,
    walletBalance: int,
    totalEarned: int,
    moviesWatched: int,
    transactions: seq<Transaction>,    // newest first
    currentTransactionType: Option<TxType>,
    selectedBank: Option<string>)

  const Reward: int := 100
  const AdminUsername: string := "admin"
  const AdminPassword: string := "admin123"
  const NoDetails: string := "No additional details"

  /** The record the page starts from before anything is loaded. */
  function Initial(): (r: Record)
    ensures !r.isLoggedIn && !r.isAdmin
    ensures r.walletBalance == 0 && r.totalEarned == 0 && r.moviesWatched == 0
    ensures r.transactions == []
    ensures r.currentTransactionType == None && r.selectedBank == None
  {
    Record(false, false, 0, 0, 0, [], None, None)
  }

  // ---------------------------------------------------------------------------
  // The transaction log

  /** `addTransaction`: the new entry goes in front, so the log is newest first. */
  function Prepend(log: seq<Transaction>, tx: Transaction): (r: seq<Transaction>)
    ensures |r| == |log| + 1 && r[0] == tx && r[1..] == log
  {
    [tx] + log
  }

  /** `loadTransactions`, which `addTransaction` calls after every prepend,
      reads `tx.type.charAt(0)` of every entry: it runs through only when
      every entry has a type, and throws on an entry whose type is `null`. */
  predicate Renders(log: seq<Transaction>)
    ensures Renders(log) <==> forall tx :: tx in log ==> tx.kind.Some?
  {
    forall i :: 0 <= i < |log| ==> log[i].kind.Some?
  }

  /** A prepend renders exactly when the new entry has a type and the old
      log rendered. */
  lemma PrependRenders(log: seq<Transaction>, tx: Transaction)
    ensures Renders(Prepend(log, tx)) <==> tx.kind.Some? && Renders(log)
  {
    var l := Prepend(log, tx);
    if tx.kind.Some? && Renders(log) {
      forall i | 0 <= i < |l| ensures l[i].kind.Some? {
        if i > 0 { assert l[i] == log[i - 1]; }
      }
    } else if tx.kind.Some? {
      var i :| 0 <= i < |log| && log[i].kind.None?;
      assert l[i + 1] == log[i];
    }
  }

  /** After `addTransaction` the new entry is at index 0 and every earlier
      entry sits one place later, unchanged. */
  lemma PrependShifts(log: seq<Transaction>, tx: Transaction)
    ensures |Prepend(log, tx)| == |log| + 1
    ensures Prepend(log, tx)[0] == tx
    ensures forall i :: 0 <= i < |log| ==> Prepend(log, tx)[i + 1] == log[i]
  {
  }

  // ---------------------------------------------------------------------------
  // watchMovie

  /** The entry logged for a movie reward. */
  function RewardEntry(timestamp: string): (e: Transaction)
    ensures e.kind == Some(Earning) && e.amount == Reward && e.status == Completed
    ensures SignedAmount(e) == EarnedAmount(e) == Reward
  {
    Transaction(Some(Earning), "Movie Reward", "System", "N/A", Reward, Completed,
                "Reward for watching movie", timestamp)
  }

  /** The first three statements of `watchMovie`: the counters only. */
  function Credited(r: Record): (r': Record)
    ensures r'.walletBalance - r.walletBalance == r'.totalEarned - r.totalEarned == Reward
    ensures r'.moviesWatched == r.moviesWatched + 1
    ensures r'.transactions == r.transactions
    ensures r'.(walletBalance := r.walletBalance, totalEarned := r.totalEarned,
                moviesWatched := r.moviesWatched) == r
  {
    r.(walletBalance := r.walletBalance + Reward,
       totalEarned := r.totalEarned + Reward,
       moviesWatched := r.moviesWatched + 1)
  }

  /** The whole effect of `watchMovie` on the in-memory record. */
  function Watched(r: Record, timestamp: string): (r': Record)
    ensures |r'.transactions| == |r.transactions| + 1
    ensures r'.transactions[0] == RewardEntry(timestamp) && r'.transactions[1..] == r.transactions
    ensures r'.(transactions := r.transactions) == Credited(r)
  {
    Credited(r).(transactions := Prepend(r.transactions, RewardEntry(timestamp)))
  }

  /** A movie reward credits exactly 100 to the balance and to the total earned,
      counts one more movie, logs one completed `earning` entry of 100 in
      front of the unchanged older entries, and touches nothing else. */
  lemma WatchedCredits(r: Record, timestamp: string)
    ensures Watched(r, timestamp).walletBalance == r.walletBalance + 100
    ensures Watched(r, timestamp).totalEarned == r.totalEarned + 100
    ensures Watched(r, timestamp).moviesWatched == r.moviesWatched + 1
    ensures |Watched(r, timestamp).transactions| == |r.transactions| + 1
    ensures Watched(r, timestamp).transactions[1..] == r.transactions
    ensures var e := Watched(r, timestamp).transactions[0];
      e.kind == Some(Earning) && e.amount == 100 && e.status == Completed
    ensures Watched(r, timestamp).(walletBalance := r.walletBalance, totalEarned := r.totalEarned,
      moviesWatched := r.moviesWatched, transactions := r.transactions) == r
  {
  }

  /** Watching twice credits twice: there is no guard against re-watching. */
  lemma WatchedTwice(r: Record, t1: string, t2: string)
    ensures Watched(Watched(r, t1), t2).walletBalance == r.walletBalance + 200
    ensures Watched(Watched(r, t1), t2).totalEarned == r.totalEarned + 200
    ensures Watched(Watched(r, t1), t2).moviesWatched == r.moviesWatched + 2
    ensures Watched(Watched(r, t1), t2).transactions == [RewardEntry(t2), RewardEntry(t1)] + r.transactions
  {
  }

  // ---------------------------------------------------------------------------
  // handleTransaction

  datatype Outcome =
    | Done                 // the entry was logged and the balance adjusted
    | NoBankSelected       // "Please select a bank"
    | InsufficientBalance  // "Insufficient wallet balance"
    | RenderError          // the entry was logged, then re-rendering the log threw

  /** `!state.selectedBank` rejects both `null` and the empty string. */
  predicate HasBank(r: Record)
    ensures r.selectedBank == None ==> !HasBank(r)
    ensures r.selectedBank == Some("") ==> !HasBank(r)
    ensures r.selectedBank.Some? && r.selectedBank.value != "" ==> HasBank(r)
  {
    r.selectedBank.Some? && r.selectedBank.value != ""
  }

  /** The balance `switch`: deposit adds, withdraw and transfer subtract, any
      other type (`null`, `earning`) leaves the balance alone. */
  function Delta(kind: Option<TxType>, amount: int): (d: int)
    ensures kind != Some(Earning) ==>
      d == SignedAmount(Transaction(kind, "", "", "", amount, Completed, "", ""))
    ensures kind == Some(Earning) ==> d == 0
  {
    match kind
    case Some(Deposit) => amount
    case Some(Withdraw) => -amount
    case Some(Transfer) => -amount
    case _ => 0
  }

  /** `details || 'No additional details'`: the empty string is falsy. */
  function DetailsOrDefault(details: string): (d: string)
    ensures d != ""
    ensures details != "" ==> d == details
    ensures details == "" ==> d == NoDetails
  {
    if details == "" then NoDetails else details
  }

  /** The entry a submitted form logs. */
  function FormEntry(r: Record, accountName: string, accountNumber: string, amount: int,
                     details: string, timestamp: string): (e: Transaction)
    requires HasBank(r)
    ensures e.kind == r.currentTransactionType && e.status == Completed && e.amount == amount
    ensures e.accountName == accountName && e.accountNumber == accountNumber
    ensures e.timestamp == timestamp
    ensures |e.bank| == |r.selectedBank.value|
    ensures forall i :: 0 <= i < |e.bank| ==> e.bank[i] == UpperChar(r.selectedBank.value[i])
    ensures e.details == DetailsOrDefault(details)
  {
    Transaction(r.currentTransactionType, Upper(r.selectedBank.value), accountName, accountNumber,
                amount, Completed, DetailsOrDefault(details), timestamp)
  }

  /** The record a submission that passes both checks has logged, before the
      re-rendering decides whether the form is closed. */
  function LoggedRecord(r: Record, accountName: string, accountNumber: string, amount: int,
                        details: string, timestamp: string): (l: Record)
    requires HasBank(r)
    ensures l.(walletBalance := r.walletBalance, transactions := r.transactions) == r
    ensures l.walletBalance == r.walletBalance + Delta(r.currentTransactionType, amount)
    ensures l.transactions == Prepend(r.transactions,
                                      FormEntry(r, accountName, accountNumber, amount, details, timestamp))
  {
    r.(walletBalance := r.walletBalance + Delta(r.currentTransactionType, amount),
       transactions := Prepend(r.transactions,
                               FormEntry(r, accountName, accountNumber, amount, details, timestamp)))
  }

  /** `handleTransaction` on the form values: the outcome and the new record.
      Only a withdraw is checked against the balance. After the balance is
      adjusted, `addTransaction` prepends the entry and re-renders the log; if
      that throws, the save and the closing of the form never happen. */
  function Transact(r: Record, accountName: string, accountNumber: string, amount: int,
                    details: string, timestamp: string): (res: (Outcome, Record))
    ensures res.0 == NoBankSelected <==> !HasBank(r)
    ensures res.0 == InsufficientBalance <==>
      HasBank(r) && r.currentTransactionType == Some(Withdraw) && amount > r.walletBalance
    ensures res.0 == RenderError <==>
      && HasBank(r) && !(r.currentTransactionType == Some(Withdraw) && amount > r.walletBalance)
      && (r.currentTransactionType == None || !Renders(r.transactions))
    ensures res.0 in {NoBankSelected, InsufficientBalance} ==> res.1 == r
    ensures res.0 == RenderError ==> res.1.selectedBank == r.selectedBank
  {
    if !HasBank(r) then
      (NoBankSelected, r)
    else if r.currentTransactionType == Some(Withdraw) && amount > r.walletBalance then
      (InsufficientBalance, r)
    else
      var entry := FormEntry(r, accountName, accountNumber, amount, details, timestamp);
      var logged := LoggedRecord(r, accountName, accountNumber, amount, details, timestamp);
      PrependRenders(r.transactions, entry);
      if Renders(logged.transactions) then (Done, logged.(selectedBank := None))
      else (RenderError, logged)
  }

  /** Once both checks pass, the outcome is decided by the re-rendering alone. */
  lemma TransactPassed(r: Record, accountName: string, accountNumber: string, amount: int,
                       details: string, timestamp: string)
    requires HasBank(r) && !(r.currentTransactionType == Some(Withdraw) && amount > r.walletBalance)
    ensures var l := LoggedRecord(r, accountName, accountNumber, amount, details, timestamp);
      Transact(r, accountName, accountNumber, amount, details, timestamp) ==
        if Renders(l.transactions) then (Done, l.(selectedBank := None)) else (RenderError, l)
  {
  }

  /** Whether the submission got as far as logging its entry. */
  predicate Logged(o: Outcome)
  {
    o == Done || o == RenderError
  }

  /** A successful transaction moves the balance by +amount for a deposit and
      by -amount for a withdraw or a transfer, leaves the reward counters and
      the session alone, prepends exactly one completed entry naming the bank
      in capitals (with the default details when none were given), and clears
      the selected bank. */
  lemma TransactEffects(r: Record, accountName: string, accountNumber: string, amount: int,
                        details: string, timestamp: string)
    requires Transact(r, accountName, accountNumber, amount, details, timestamp).0 == Done
    ensures r.currentTransactionType.Some?
    ensures var r' := Transact(r, accountName, accountNumber, amount, details, timestamp).1;
      && (r.currentTransactionType == Some(Deposit) ==> r'.walletBalance == r.walletBalance + amount)
      && (r.currentTransactionType in {Some(Withdraw), Some(Transfer)} ==>
            r'.walletBalance == r.walletBalance - amount)
      && r'.totalEarned == r.totalEarned && r'.moviesWatched == r.moviesWatched
      && r'.isLoggedIn == r.isLoggedIn && r'.isAdmin == r.isAdmin
      && r'.currentTransactionType == r.currentTransactionType
      && |r'.transactions| == |r.transactions| + 1 && r'.transactions[1..] == r.transactions
      && r'.transactions[0].status == Completed
      && r'.transactions[0].kind == r.currentTransactionType
      && r'.transactions[0].amount == amount
      && r'.transactions[0].bank == Upper(r.selectedBank.value)
      && r'.transactions[0].details == DetailsOrDefault(details)
      && r'.transactions[0] == FormEntry(r, accountName, accountNumber, amount, details, timestamp)
      && r'.selectedBank == None
  {
  }

  /** A submission while no form type is set, or while the log already holds
      an untyped entry, logs its entry and adjusts the balance, but the
      re-rendering throws: the bank stays selected, and the log still holds
      an untyped entry, so no later submission can succeed either. */
  lemma UntypedEntryBlocksSubmissions(r: Record, accountName: string, accountNumber: string,
                                      amount: int, details: string, timestamp: string)
    requires Logged(Transact(r, accountName, accountNumber, amount, details, timestamp).0)
    requires r.currentTransactionType == None || !Renders(r.transactions)
    ensures var (o, r') := Transact(r, accountName, accountNumber, amount, details, timestamp);
      && o == RenderError
      && r'.walletBalance == r.walletBalance + Delta(r.currentTransactionType, amount)
      && r'.transactions[1..] == r.transactions
      && r'.transactions[0] == FormEntry(r, accountName, accountNumber, amount, details, timestamp)
      && r'.selectedBank == r.selectedBank
      && !Renders(r'.transactions)
  {
    var e := FormEntry(r, accountName, accountNumber, amount, details, timestamp);
    PrependRenders(r.transactions, e);
  }

  /** A transfer is never checked against the balance: with a bank selected,
      any transfer goes through, even one that leaves the balance negative. */
  lemma TransferMayOverdraw(r: Record, accountName: string, accountNumber: string, amount: int,
                            details: string, timestamp: string)
    requires HasBank(r) && r.currentTransactionType == Some(Transfer)
    requires amount > r.walletBalance
    ensures Logged(Transact(r, accountName, accountNumber, amount, details, timestamp).0)
    ensures Transact(r, accountName, accountNumber, amount, details, timestamp).1.walletBalance < 0
  {
  }

  // ---------------------------------------------------------------------------
  // Session flags and form context

  /** `handleAdminLogin`: a single hard-coded pair opens an admin session. */
  function AdminLogin(r: Record, username: string, password: string): (res: (bool, Record))
    ensures res.0 <==> username == AdminUsername && password == AdminPassword
    ensures res.0 ==> res.1.isLoggedIn && res.1.isAdmin
    ensures res.1 == r.(isLoggedIn := res.1.isLoggedIn, isAdmin := res.1.isAdmin)
    ensures !res.0 ==> res.1 == r
  {
    if username == AdminUsername && password == AdminPassword then
      (true, r.(isLoggedIn := true, isAdmin := true))
    else
      (false, r)
  }

  /** `logout` clears both session flags. */
  function Logout(r: Record): (r': Record)
    ensures !r'.isLoggedIn && !r'.isAdmin
    ensures r'.(isLoggedIn := r.isLoggedIn, isAdmin := r.isAdmin) == r
  {
    r.(isLoggedIn := false, isAdmin := false)
  }

  /** The fields that make up the wallet: balance, counters and log. */
  predicate SameWallet(a: Record, b: Record)
  {
    a.walletBalance == b.walletBalance && a.totalEarned == b.totalEarned &&
    a.moviesWatched == b.moviesWatched && a.transactions == b.transactions
  }

  /** Logging in and out never touches the wallet, and a logout after a
      successful login ends with both flags cleared again. */
  lemma SessionLeavesWallet(r: Record, username: string, password: string)
    ensures SameWallet(AdminLogin(r, username, password).1, r)
    ensures SameWallet(Logout(r), r)
    ensures Logout(AdminLogin(r, username, password).1) == Logout(r)
  {
  }

  /** `openTransactionForm(type)` records the form's transaction type. */
  function OpenForm(r: Record, kind: TxType): (r': Record)
    ensures r'.currentTransactionType == Some(kind)
    ensures r'.(currentTransactionType := r.currentTransactionType) == r
  {
    r.(currentTransactionType := Some(kind))
  }

  /** `selectBank(bank)` records the chosen bank. */
  function SelectBank(r: Record, bank: string): (r': Record)
    ensures r'.selectedBank == Some(bank)
    ensures r'.(selectedBank := r.selectedBank) == r
  {
    r.(selectedBank := Some(bank))
  }

  /** `closeTransactionForm` forgets the chosen bank (its DOM part is not modelled). */
  function CloseForm(r: Record): (r': Record)
    ensures r'.selectedBank == None
    ensures r'.(selectedBank := r.selectedBank) == r
  {
    r.(selectedBank := None)
  }

  /** Choosing a bank only enables a transaction when its name is not empty,
      and closing the form always disables it. */
  lemma BankSelection(r: Record, bank: string, accountName: string, accountNumber: string,
                      amount: int, details: string, timestamp: string)
    ensures HasBank(SelectBank(r, bank)) <==> bank != ""
    ensures !HasBank(CloseForm(r))
    ensures Transact(CloseForm(r), accountName, accountNumber, amount, details, timestamp).0
            == NoBankSelected
  {
  }

  // ---------------------------------------------------------------------------
  // loadState: the stored record overlaid on the current one

  /** A record as parsed back from storage: each field may be absent. A
      present `currentTransactionType` or `selectedBank` may itself be null. */
  datatype Saved = Saved(
    isLoggedIn: Option<bool>,
    isAdmin: Option<bool>,
    walletBalance: Option<int>,
    totalEarned: Option<int>,
    moviesWatched: Option<int>,
    transactions: Option<seq<Transaction>>,
    currentTransactionType: Option<Option<TxType>>,
    selectedBank: Option<Option<string>>)

  /** A stored object with no fields at all. */
  function NoFields(): Saved
  {
    Saved(None, None, None, None, None, None, None, None)
  }

  /** What `saveState` writes: every field present. */
  function Full(r: Record): (s: Saved)
    ensures Merge(Initial(), s) == r
  {
    Saved(Some(r.isLoggedIn), Some(r.isAdmin), Some(r.walletBalance), Some(r.totalEarned),
          Some(r.moviesWatched), Some(r.transactions), Some(r.currentTransactionType),
          Some(r.selectedBank))
  }

  /** One field of the object spread: the stored value if present, else the current one. */
  function Overlay<T>(stored: Option<T>, current: T): T
  {
    match stored
    case Some(v) => v
    case None => current
  }

  /** `{ ...state, ...saved }`. */
  function Merge(current: Record, saved: Saved): (m: Record)
    ensures saved == NoFields() ==> m == current
  {
    Record(
      Overlay(saved.isLoggedIn, current.isLoggedIn),
      Overlay(saved.isAdmin, current.isAdmin),
      Overlay(saved.walletBalance, current.walletBalance),
      Overlay(saved.totalEarned, current.totalEarned),
      Overlay(saved.moviesWatched, current.moviesWatched),
      Overlay(saved.transactions, current.transactions),
      Overlay(saved.currentTransactionType, current.currentTransactionType),
      Overlay(saved.selectedBank, current.selectedBank))
  }

  /** Field by field, a stored field replaces the current one and an absent
      field keeps the current value. */
  lemma MergeFieldwise(current: Record, saved: Saved)
    ensures var m := Merge(current, saved);
      && (if saved.isLoggedIn.Some? then m.isLoggedIn == saved.isLoggedIn.value
          else m.isLoggedIn == current.isLoggedIn)
      && (if saved.isAdmin.Some? then m.isAdmin == saved.isAdmin.value
          else m.isAdmin == current.isAdmin)
      && (if saved.walletBalance.Some? then m.walletBalance == saved.walletBalance.value
          else m.walletBalance == current.walletBalance)
      && (if saved.totalEarned.Some? then m.totalEarned == saved.totalEarned.value
          else m.totalEarned == current.totalEarned)
      && (if saved.moviesWatched.Some? then m.moviesWatched == saved.moviesWatched.value
          else m.moviesWatched == current.moviesWatched)
      && (if saved.transactions.Some? then m.transactions == saved.transactions.value
          else m.transactions == current.transactions)
      && (if saved.currentTransactionType.Some?
          then m.currentTransactionType == saved.currentTransactionType.value
          else m.currentTransactionType == current.currentTransactionType)
      && (if saved.selectedBank.Some? then m.selectedBank == saved.selectedBank.value
          else m.selectedBank == current.selectedBank)
  {
  }

  /** A record written whole replaces the current one entirely; an empty
      stored object changes nothing; loading the same object twice is
      loading it once; and saving what was just loaded writes the stored
      object back unchanged. */
  lemma MergeLaws(current: Record, r: Record, saved: Saved)
    ensures Merge(current, Full(r)) == r
    ensures Merge(current, NoFields()) == current
    ensures Merge(Merge(current, saved), saved) == Merge(current, saved)
    ensures Full(Merge(current, Full(r))) == Full(r)
  {
  }

  // ---------------------------------------------------------------------------
  // The ledger invariant

  /** What one completed entry means for the balance: credits add, debits
      subtract; an entry without a type moves nothing. */
  function SignedAmount(tx: Transaction): int
  {
    if tx.status != Completed then 0
    else match tx.kind
      case Some(Deposit) => tx.amount
      case Some(Earning) => tx.amount
      case Some(Withdraw) => -tx.amount
      case Some(Transfer) => -tx.amount
      case None => 0
  }

  function SignedSum(log: seq<Transaction>): int
  {
    if log == [] then 0 else SignedAmount(log[0]) + SignedSum(log[1..])
  }

  /** What one entry adds to the total earned: its amount if it is a
      completed reward. */
  function EarnedAmount(tx: Transaction): int
  {
    if tx.kind == Some(Earning) && tx.status == Completed then tx.amount else 0
  }

  /** The rewards in the log. */
  function EarnedSum(log: seq<Transaction>): int
  {
    if log == [] then 0 else EarnedAmount(log[0]) + EarnedSum(log[1..])
  }

  /** The signed sum of a log is the sum over its two parts. */
  lemma {:induction false} SignedSumAppend(a: seq<Transaction>, b: seq<Transaction>)
    ensures SignedSum(a + b) == SignedSum(a) + SignedSum(b)
    ensures EarnedSum(a + b) == EarnedSum(a) + EarnedSum(b)
  {
    if a != [] {
      assert (a + b)[0] == a[0];
      assert (a + b)[1..] == a[1..] + b;
      SignedSumAppend(a[1..], b);
    } else {
      assert a + b == b;
    }
  }

  /** The intended bookkeeping: the balance is the signed sum of the
      completed entries, the total earned is the sum of the rewards and is
      100 per movie watched, and the open form is not an `earning` form (the
      balance switch has no case for one). */
  predicate Consistent(r: Record)
  {
    && r.walletBalance == SignedSum(r.transactions)
    && r.totalEarned == EarnedSum(r.transactions)
    && r.totalEarned == Reward * r.moviesWatched
    && r.currentTransactionType != Some(Earning)
  }

  lemma InitialConsistent()
    ensures Consistent(Initial())
  {
  }

  lemma WatchedKeepsConsistent(r: Record, timestamp: string)
    requires Consistent(r)
    ensures Consistent(Watched(r, timestamp))
  {
  }

  lemma TransactKeepsConsistent(r: Record, accountName: string, accountNumber: string, amount: int,
                                details: string, timestamp: string)
    requires Consistent(r)
    ensures Consistent(Transact(r, accountName, accountNumber, amount, details, timestamp).1)
  {
  }

  // ---------------------------------------------------------------------------
  // Sequences of user actions

  datatype Action =
    | WatchMovie(timestamp: string)
    | SubmitForm(accountName: string, accountNumber: string, amount: int, details: string,
                 timestamp: string)
    | LogIn(username: string, password: string)
    | LogOut
    | OpenTransactionForm(kind: TxType)
    | ChooseBank(bank: string)
    | CloseTransactionForm

  function Step(r: Record, a: Action): Record
  {
    match a
    case WatchMovie(t) => Watched(r, t)
    case SubmitForm(n, k, amt, d, t) => Transact(r, n, k, amt, d, t).1
    case LogIn(u, p) => AdminLogin(r, u, p).1
    case LogOut => Logout(r)
    case OpenTransactionForm(kind) => OpenForm(r, kind)
    case ChooseBank(b) => SelectBank(r, b)
    case CloseTransactionForm => CloseForm(r)
  }

  /** Whether the action adds an entry to the log. */
  predicate Logs(r: Record, a: Action)
  {
    a.WatchMovie? ||
    (a.SubmitForm? &&
     Logged(Transact(r, a.accountName, a.accountNumber, a.amount, a.details, a.timestamp).0))
  }

  /** Each action logs at most one entry, in front of the unchanged log. */
  lemma StepLogsNewestFirst(r: Record, a: Action)
    ensures Logs(r, a) ==> (|Step(r, a).transactions| == |r.transactions| + 1
                            && Step(r, a).transactions[1..] == r.transactions)
    ensures !Logs(r, a) ==> Step(r, a).transactions == r.transactions
  {
  }

  /** Outside an `earning` form, an action that logs an entry moves the
      balance by that entry's signed amount and the total earned by its reward;
      any other action moves neither. */
  lemma StepLedger(r: Record, a: Action)
    requires r.currentTransactionType != Some(Earning)
    ensures Logs(r, a) ==>
      && Step(r, a).walletBalance == r.walletBalance + SignedAmount(Step(r, a).transactions[0])
      && Step(r, a).totalEarned == r.totalEarned + EarnedAmount(Step(r, a).transactions[0])
    ensures !Logs(r, a) ==>
      Step(r, a).walletBalance == r.walletBalance && Step(r, a).totalEarned == r.totalEarned
  {
  }

  /** No action but opening an `earning` form sets the form type to `earning`. */
  lemma StepKeepsFormType(r: Record, a: Action)
    requires r.currentTransactionType != Some(Earning) && a != OpenTransactionForm(Earning)
    ensures Step(r, a).currentTransactionType != Some(Earning)
  {
  }

  function Run(r: Record, actions: seq<Action>): Record
    decreases |actions|
  {
    if actions == [] then r else Run(Step(r, actions[0]), actions[1..])
  }

  /** How many of the actions, run in order from `r`, log an entry. */
  function LoggedCount(r: Record, actions: seq<Action>): nat
    decreases |actions|
  {
    if actions == [] then 0
    else (if Logs(r, actions[0]) then 1 else 0) + LoggedCount(Step(r, actions[0]), actions[1..])
  }

  /** The UI only opens deposit, withdraw and transfer forms. */
  predicate NoEarningForm(actions: seq<Action>)
  {
    forall i :: 0 <= i < |actions| ==> actions[i] != OpenTransactionForm(Earning)
  }

  /** Any run keeps the bookkeeping invariant. */
  lemma {:induction false} RunKeepsConsistent(r: Record, actions: seq<Action>)
    requires Consistent(r) && NoEarningForm(actions)
    ensures Consistent(Run(r, actions))
    decreases |actions|
  {
    if actions != [] {
      var a := actions[0];
      match a {
        case WatchMovie(t) => WatchedKeepsConsistent(r, t);
        case SubmitForm(n, k, amt, d, t) => TransactKeepsConsistent(r, n, k, amt, d, t);
        case _ =>
      }
      assert NoEarningForm(actions[1..]);
      RunKeepsConsistent(Step(r, a), actions[1..]);
    }
  }

  /** After a run the old log is still there, below exactly one new entry per
      logging action (newest first); the balance has moved by the signed sum
      of the new entries, and the total earned by the sum of their rewards. */
  lemma {:induction false} RunLedger(r: Record, actions: seq<Action>)
    requires r.currentTransactionType != Some(Earning) && NoEarningForm(actions)
    ensures var log := Run(r, actions).transactions;
      var k := LoggedCount(r, actions);
      && |log| == |r.transactions| + k
      && log[k..] == r.transactions
      && Run(r, actions).walletBalance == r.walletBalance + SignedSum(log[..k])
      && Run(r, actions).totalEarned == r.totalEarned + EarnedSum(log[..k])
    decreases |actions|
  {
    if actions != [] {
      var a := actions[0];
      var s := Step(r, a);
      assert NoEarningForm(actions[1..]);
      StepKeepsFormType(r, a);
      RunLedger(s, actions[1..]);
      StepLogsNewestFirst(r, a);
      StepLedger(r, a);
      var log := Run(s, actions[1..]).transactions;
      var j := LoggedCount(s, actions[1..]);
      assert log[j..] == s.transactions;
      if Logs(r, a) {
        var e := s.transactions[0];
        assert log[j] == e;
        assert log[..j + 1] == log[..j] + [e];
        assert log[j + 1..] == r.transactions;
        SignedSumAppend(log[..j], [e]);
      }
    }
  }

  // ---------------------------------------------------------------------------
  // What `watchMovie` leaves in storage

  /** `watchMovie` calls `saveState` before `addTransaction`, so what it
      stores is the credited record with the old log. */
  function StoredByWatchAsWritten(r: Record): (s: Saved)
    ensures s.walletBalance == Some(r.walletBalance + Reward)
    ensures s.totalEarned == Some(r.totalEarned + Reward)
    ensures s.moviesWatched == Some(r.moviesWatched + 1)
    ensures s.transactions == Some(r.transactions)
    ensures Merge(Initial(), s) == Credited(r)
  {
    Full(Credited(r))
  }

  /** Saving after logging stores the whole new record. */
  function StoredByWatch(r: Record, timestamp: string): Saved
  {
    Full(Watched(r, timestamp))
  }

  /** As written, reloading the page right after a movie reward gives back
      the credit without its log entry, so a consistent ledger comes back
      inconsistent. */
  lemma WatchReloadLosesEntry(r: Record, timestamp: string)
    requires Consistent(r)
    ensures var back := Merge(Initial(), StoredByWatchAsWritten(r));
      && back.walletBalance == r.walletBalance + Reward
      && back.transactions == r.transactions
      && !Consistent(back)
  {
  }

  /** Saving after logging, reloading gives back exactly the record in
      memory, and a consistent ledger stays consistent. */
  lemma WatchReloadKeepsEntry(r: Record, timestamp: string, current: Record)
    requires Consistent(r)
    ensures Merge(current, StoredByWatch(r, timestamp)) == Watched(r, timestamp)
    ensures Consistent(Merge(current, StoredByWatch(r, timestamp)))
  {
    WatchedKeepsConsistent(r, timestamp);
  }

  /** `handleTransaction` saves after logging but before closing the form: the
      stored wallet matches the one in memory, while the stored bank is still
      the one that was selected. */
  lemma TransactStoredWallet(r: Record, accountName: string, accountNumber: string, amount: int,
                             details: string, timestamp: string, current: Record)
    requires Transact(r, accountName, accountNumber, amount, details, timestamp).0 == Done
    ensures var r' := Transact(r, accountName, accountNumber, amount, details, timestamp).1;
      var back := Merge(current, Full(r'.(selectedBank := r.selectedBank)));
      SameWallet(back, r') && back.selectedBank == r.selectedBank
  {
  }

  // ---------------------------------------------------------------------------
  // Scenarios

  /** From the initial record, one movie gives a balance of 100 and one
      `earning` entry of 100. */
  lemma FirstMovieScenario(timestamp: string)
    ensures var r := Watched(Initial(), timestamp);
      r.walletBalance == 100 && r.totalEarned == 100 && r.moviesWatched == 1
      && |r.transactions| == 1 && r.transactions[0].kind == Some(Earning)
      && r.transactions[0].amount == 100
  {
  }

  /** With 100 in the wallet, withdrawing 150 is refused and changes nothing,
      while withdrawing 40 leaves 60 and logs one completed withdraw of 40. */
  lemma WithdrawScenarios(r: Record, bank: string, name: string, number: string, details: string,
                          timestamp: string)
    requires r.walletBalance == 100 && bank != ""
    requires r.currentTransactionType == Some(Withdraw) && r.selectedBank == Some(bank)
    ensures Transact(r, name, number, 150, details, timestamp) == (InsufficientBalance, r)
    ensures var (o, r') := Transact(r, name, number, 40, details, timestamp);
      (o == Done <==> Renders(r.transactions)) && Logged(o) && r'.walletBalance == 60 && |r'.transactions| == |r.transactions| + 1
      && r'.transactions[0].kind == Some(Withdraw) && r'.transactions[0].amount == 40
      && r'.transactions[0].status == Completed
  {
  }

  /** Submitting with a bank chosen before any form type was set logs an
      untyped entry and leaves the balance alone; the re-rendering then throws,
      so the bank stays selected. */
  lemma UntypedSubmissionScenario(bank: string, name: string, number: string, amount: int,
                                  details: string, timestamp: string)
    requires bank != ""
    ensures var (o, r) := Transact(SelectBank(Initial(), bank), name, number, amount, details, timestamp);
      && o == RenderError && r.walletBalance == 0 && r.selectedBank == Some(bank)
      && |r.transactions| == 1 && r.transactions[0].kind == None
  {
  }
}
