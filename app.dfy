/** The global `state` object of app.js as a class whose fields the handlers
    update in place, together with the browser's storage slot that
    `saveState`/`loadState` write and read. Form values, credentials, the
    timestamp and the stored object are parameters; DOM updates and
    notifications are not modelled. Every handler is proved against the
    matching transition function of module Ledger. */
module App {
  import opened Text
  import opened Ledger

  class AppState {
    var isLoggedIn: bool
    var isAdmin: bool
    var walletBalance: int
    var totalEarned: int
    var moviesWatched: int
    var transactions: seq<Transaction>
    var currentTransactionType: Option<TxType>
    var selectedBank: Option<string>
    /** The storage slot `movieWallState`: absent, or the last object saved. */
    var storage: Option<Saved>

    /** The state fields as one record value. */
    function Snapshot(): Record
      reads this
    {
      Record(isLoggedIn, isAdmin, walletBalance, totalEarned, moviesWatched, transactions,
             currentTransactionType, selectedBank)
    }

    /** The defaults of the `state` literal; the storage slot holds whatever
        an earlier visit left there. */
    constructor (stored: Option<Saved>)
      ensures Snapshot() == Initial()
      ensures storage == stored
    {
      isLoggedIn, isAdmin := false, false;
      walletBalance, totalEarned, moviesWatched := 0, 0, 0;
      transactions := [];
      currentTransactionType, selectedBank := None, None;
      storage := stored;
    }

    /** `saveState`: writes every field to the storage slot. */
    method SaveState()
      modifies this`storage
      ensures storage == Some(Full(Snapshot()))
    {
      storage := Some(Full(Snapshot()));
    }

    /** `loadState`: overlays the stored object, if any, on the current fields. */
    method LoadState()
      modifies this
      ensures storage == old(storage)
      ensures old(storage).None? ==> Snapshot() == old(Snapshot())
      ensures old(storage).Some? ==> Snapshot() == Merge(old(Snapshot()), old(storage).value)
    {
      if storage.Some? {
        var saved := storage.value;
        isLoggedIn := Overlay(saved.isLoggedIn, isLoggedIn);
        isAdmin := Overlay(saved.isAdmin, isAdmin);
        walletBalance := Overlay(saved.walletBalance, walletBalance);
        totalEarned := Overlay(saved.totalEarned, totalEarned);
        moviesWatched := Overlay(saved.moviesWatched, moviesWatched);
        transactions := Overlay(saved.transactions, transactions);
        currentTransactionType := Overlay(saved.currentTransactionType, currentTransactionType);
        selectedBank := Overlay(saved.selectedBank, selectedBank);
      }
    }

    /** `loadTransactions`, without its table rows: walks the log in order and
        stops at the first entry whose type is `null`, where `tx.type.charAt`
        throws. `rendered` is false when that happens. */
    method LoadTransactions() returns (rendered: bool)
      ensures rendered == Renders(transactions)
    {
      var i := 0;
      while i < |transactions|
        invariant 0 <= i <= |transactions|
        invariant forall j :: 0 <= j < i ==> transactions[j].kind.Some?
      {
        if transactions[i].kind.None? {
          return false;
        }
        i := i + 1;
      }
      return true;
    }

    /** `addTransaction`: the new entry goes in front of the log, which is then
        re-rendered; `rendered` is false when the rendering throws. */
    method AddTransaction(tx: Transaction) returns (rendered: bool)
      modifies this`transactions
      ensures transactions == Prepend(old(transactions), tx)
      ensures transactions[0] == tx && transactions[1..] == old(transactions)
      ensures rendered == Renders(transactions)
    {
      transactions := [tx] + transactions;
      rendered := LoadTransactions();
    }

    /** `watchMovie`, in the order of the source: the counters are credited,
        the state is saved, and only then is the reward logged. `movieId`
        plays no part. `rendered` is false when re-rendering the log throws,
        which happens after everything else. */
    method WatchMovie(movieId: int, timestamp: string) returns (rendered: bool)
      modifies this
      ensures Snapshot() == Watched(old(Snapshot()), timestamp)
      ensures storage == Some(StoredByWatchAsWritten(old(Snapshot())))
      ensures rendered == Renders(transactions)
    {
      walletBalance := walletBalance + Reward;
      totalEarned := totalEarned + Reward;
      moviesWatched := moviesWatched + 1;
      SaveState();
      rendered := AddTransaction(RewardEntry(timestamp));
    }

    /** `watchMovie` with the reward logged before the state is saved, so the
        storage slot holds the record that is in memory; as in
        `handleTransaction`, a throw from the re-rendering skips the save. */
    method WatchMovieSavingAfterLog(movieId: int, timestamp: string) returns (rendered: bool)
      modifies this
      ensures Snapshot() == Watched(old(Snapshot()), timestamp)
      ensures rendered == Renders(transactions)
      ensures storage == if rendered then Some(StoredByWatch(old(Snapshot()), timestamp))
                         else old(storage)
    {
      walletBalance := walletBalance + Reward;
      totalEarned := totalEarned + Reward;
      moviesWatched := moviesWatched + 1;
      rendered := AddTransaction(RewardEntry(timestamp));
      if !rendered {
        return;
      }
      SaveState();
    }

    /** The balance `switch` of `handleTransaction` on the current form type. */
    method AdjustBalance(amount: int)
      modifies this`walletBalance
      ensures walletBalance == old(walletBalance) + Delta(currentTransactionType, amount)
    {
      match currentTransactionType {
        case Some(Deposit) => walletBalance := walletBalance + amount;
        case Some(Withdraw) => walletBalance := walletBalance - amount;
        case Some(Transfer) => walletBalance := walletBalance - amount;
        case _ =>
      }
    }

    /** `handleTransaction` on the submitted form values. On success the state
        is saved after logging and before the form is closed, so the stored
        bank is the one that was selected. When re-rendering the log throws,
        neither the save nor the closing of the form happens. */
    method HandleTransaction(accountName: string, accountNumber: string, amount: int,
                             details: string, timestamp: string) returns (outcome: Outcome)
      modifies this
      ensures (outcome, Snapshot()) ==
              Transact(old(Snapshot()), accountName, accountNumber, amount, details, timestamp)
      ensures outcome != Done ==> storage == old(storage)
      ensures outcome == RenderError ==> selectedBank == old(selectedBank)
      ensures outcome == Done ==>
        storage == Some(Full(Snapshot().(selectedBank := old(selectedBank))))
    {
      if selectedBank.None? || selectedBank.value == "" {
        return NoBankSelected;
      }
      if currentTransactionType == Some(Withdraw) && amount > walletBalance {
        return InsufficientBalance;
      }
      var before := Snapshot();
      TransactPassed(before, accountName, accountNumber, amount, details, timestamp);
      ghost var logged := LoggedRecord(before, accountName, accountNumber, amount, details, timestamp);
      var entry := FormEntry(before, accountName, accountNumber, amount, details, timestamp);
      AdjustBalance(amount);
      var rendered := AddTransaction(entry);
      assert Snapshot() == logged;
      if !rendered {
        return RenderError;
      }
      SaveState();
      CloseTransactionForm();
      outcome := Done;
    }

    /** `handleAdminLogin`: only the hard-coded pair logs in, and then the
        state is saved; any other pair changes nothing. */
    method HandleAdminLogin(username: string, password: string) returns (ok: bool)
      modifies this
      ensures (ok, Snapshot()) == AdminLogin(old(Snapshot()), username, password)
      ensures storage == if ok then Some(Full(Snapshot())) else old(storage)
    {
      ok := username == AdminUsername && password == AdminPassword;
      if ok {
        isLoggedIn := true;
        isAdmin := true;
        SaveState();
      }
    }

    /** `logout`: clears both session flags and saves. */
    method Logout()
      modifies this
      ensures Snapshot() == Ledger.Logout(old(Snapshot()))
      ensures storage == Some(Full(Snapshot()))
    {
      isLoggedIn := false;
      isAdmin := false;
      SaveState();
    }

    /** `openTransactionForm(type)`, state part. */
    method OpenTransactionForm(kind: TxType)
      modifies this`currentTransactionType
      ensures Snapshot() == OpenForm(old(Snapshot()), kind)
    {
      currentTransactionType := Some(kind);
    }

    /** `selectBank(bank)`, state part. */
    method SelectBank(bank: string)
      modifies this`selectedBank
      ensures Snapshot() == Ledger.SelectBank(old(Snapshot()), bank)
    {
      selectedBank := Some(bank);
    }

    /** `closeTransactionForm`, state part. */
    method CloseTransactionForm()
      modifies this`selectedBank
      ensures Snapshot() == CloseForm(old(Snapshot()))
    {
      selectedBank := None;
    }
  }
}
