/**
 The double-entry ledger (ledger.service.ts, ledger.repository.ts) over integer
 micro-USDC. An account row is identified by its unique (tenantId, code) pair; the code
 "1010-POLYGON" is the pair (ASSET, POLYGON).
 */
module Ledger {
  import opened Wrappers

  datatype Chain = POLYGON | BASE | ETHEREUM

  datatype AccountType = ASSET | LIABILITY | REVENUE

  datatype Code = Code(tenantId: string, kind: AccountType, chain: Chain)

  datatype Account = Account(walletId: Option<string>, balance: int)

  datatype ReferenceType = PaymentRef | FeeRef

  datatype Entry = Entry(debit: Code, credit: Code, amount: int, paymentId: nat, ref: ReferenceType)

  type Accounts = map<Code, Account>

  datatype Books = Books(accounts: Accounts, journal: seq<Entry>)

  const PLATFORM_FEE_BPS := 50

  // ---------------------------------------------------------------- accounts

  // LedgerAccount.walletId is a unique column.
  predicate WalletTaken(accounts: Accounts, walletId: string) {
    exists k :: k in accounts && accounts[k].walletId == Some(walletId)
  }

  function UpsertAccount(accounts: Accounts, code: Code, walletId: Option<string>): Result<Accounts, ()> {
    if code in accounts then Ok(accounts)
    else if walletId.Some? && WalletTaken(accounts, walletId.value) then Err(())
    else Ok(accounts[code := Account(walletId, 0)])
  }

  predicate HasWalletAccounts(accounts: Accounts, tenantId: string, chain: Chain) {
    && Code(tenantId, ASSET, chain) in accounts
    && Code(tenantId, LIABILITY, chain) in accounts
    && Code(tenantId, REVENUE, chain) in accounts
  }

  // The three upserts run concurrently: the other two stay when the first is refused.
  function EnsureWalletAccounts(accounts: Accounts, tenantId: string, walletId: string,
        chain: Chain): (r: (Accounts, bool))
    ensures r.1 == HasWalletAccounts(r.0, tenantId, chain)
  {
    var asset := UpsertAccount(accounts, Code(tenantId, ASSET, chain), Some(walletId));
    var a := if asset.Ok? then asset.value else accounts;
    var l := UpsertAccount(a, Code(tenantId, LIABILITY, chain), None).value;
    var v := UpsertAccount(l, Code(tenantId, REVENUE, chain), None).value;
    (v, asset.Ok?)
  }

  function Balance(accounts: Accounts, code: Code): int {
    if code in accounts then accounts[code].balance else 0
  }

  // SUM(balance) over the ASSET rows of a tenant, one row per chain at most.
  function TenantBalance(accounts: Accounts, tenantId: string): int {
    Balance(accounts, Code(tenantId, ASSET, POLYGON))
    + Balance(accounts, Code(tenantId, ASSET, BASE))
    + Balance(accounts, Code(tenantId, ASSET, ETHEREUM))
  }

  // ---------------------------------------------------------------- entries

  function Credit(accounts: Accounts, code: Code, amount: int): Accounts
    requires code in accounts
  {
    accounts[code := accounts[code].(balance := accounts[code].balance + amount)]
  }

  // Both balances are incremented, whichever side the entry is on.
  function WriteEntry(books: Books, e: Entry): Books
    requires e.debit in books.accounts && e.credit in books.accounts
  {
    Books(Credit(Credit(books.accounts, e.debit, e.amount), e.credit, e.amount), books.journal + [e])
  }

  // 0.5 per cent, floored to the sixth decimal.
  function Fee(amount: int): int {
    amount * PLATFORM_FEE_BPS / 10_000
  }

  // The fee that reaches the journal: the second entry is skipped unless the fee is positive.
  function BookedFee(amount: int): nat {
    if Fee(amount) > 0 then Fee(amount) else 0
  }

  function GrossEntry(tenantId: string, chain: Chain, paymentId: nat, amount: int): Entry {
    Entry(Code(tenantId, ASSET, chain), Code(tenantId, LIABILITY, chain), amount, paymentId, PaymentRef)
  }

  function FeeEntry(tenantId: string, chain: Chain, paymentId: nat, amount: int): Entry {
    Entry(Code(tenantId, LIABILITY, chain), Code(tenantId, REVENUE, chain), Fee(amount), paymentId, FeeRef)
  }

  function Settlement(tenantId: string, chain: Chain, paymentId: nat, amount: int): seq<Entry> {
    [GrossEntry(tenantId, chain, paymentId, amount)]
    + if Fee(amount) > 0 then [FeeEntry(tenantId, chain, paymentId, amount)] else []
  }

  // What the accounts are once the settlement has looked for them; false when the ASSET row is refused.
  function ReadyAccounts(accounts: Accounts, tenantId: string, walletId: string, chain: Chain): (r: (Accounts, bool))
    ensures r.1 == HasWalletAccounts(r.0, tenantId, chain)
  {
    if HasWalletAccounts(accounts, tenantId, chain) then (accounts, true)
    else EnsureWalletAccounts(accounts, tenantId, walletId, chain)
  }

  function WriteSettlement(books: Books, tenantId: string, chain: Chain, paymentId: nat, amount: int): Books
    requires HasWalletAccounts(books.accounts, tenantId, chain)
  {
    var gross := WriteEntry(books, GrossEntry(tenantId, chain, paymentId, amount));
    if Fee(amount) > 0 then WriteEntry(gross, FeeEntry(tenantId, chain, paymentId, amount)) else gross
  }

  // ---------------------------------------------------------------- what the books mean

  // Sum of the entries that touch an account, on either side.
  function Touching(journal: seq<Entry>, code: Code): int {
    if journal == [] then 0
    else
      var e := journal[|journal| - 1];
      Touching(journal[..|journal| - 1], code)
      + (if e.debit == code then e.amount else 0) + (if e.credit == code then e.amount else 0)
  }

  // Debits minus credits of an account.
  function NetDebit(journal: seq<Entry>, code: Code): int {
    if journal == [] then 0
    else
      var e := journal[|journal| - 1];
      NetDebit(journal[..|journal| - 1], code)
      + (if e.debit == code then e.amount else 0) - (if e.credit == code then e.amount else 0)
  }

  function EntriesOf(journal: seq<Entry>, paymentId: nat): seq<Entry> {
    if journal == [] then []
    else
      var e := journal[|journal| - 1];
      EntriesOf(journal[..|journal| - 1], paymentId) + if e.paymentId == paymentId then [e] else []
  }

  ghost predicate Regular(e: Entry) {
    && e.debit.tenantId == e.credit.tenantId && e.debit.chain == e.credit.chain
    && ((e.debit.kind == ASSET && e.credit.kind == LIABILITY)
      || (e.debit.kind == LIABILITY && e.credit.kind == REVENUE))
  }

  ghost predicate BooksOk(books: Books) {
    && (forall e :: e in books.journal ==> Regular(e))
    && (forall k :: Balance(books.accounts, k) == Touching(books.journal, k))
  }

  lemma EnsureKeepsBalances(accounts: Accounts, tenantId: string, walletId: string, chain: Chain, k: Code)
    ensures Balance(ReadyAccounts(accounts, tenantId, walletId, chain).0, k) == Balance(accounts, k)
  {
  }

  lemma WriteEntryKeepsBooks(books: Books, e: Entry)
    requires BooksOk(books) && Regular(e) && e.debit in books.accounts && e.credit in books.accounts
    ensures BooksOk(WriteEntry(books, e))
  {
    var after := WriteEntry(books, e);
    assert after.journal[..|books.journal|] == books.journal;
  }

  // A settlement keeps the stored balances equal to the journal, and moves three balances of its tenant and chain.
  lemma SettlementEffect(books: Books, tenantId: string, chain: Chain, paymentId: nat, amount: int)
    requires BooksOk(books) && HasWalletAccounts(books.accounts, tenantId, chain)
    ensures var after := WriteSettlement(books, tenantId, chain, paymentId, amount);
      && BooksOk(after)
      && after.journal == books.journal + Settlement(tenantId, chain, paymentId, amount)
      && after.accounts.Keys == books.accounts.Keys
      && forall k :: Balance(after.accounts, k) == Balance(books.accounts, k) +
           if k.tenantId != tenantId || k.chain != chain then 0
           else match k.kind
             case ASSET => amount
             case LIABILITY => amount + BookedFee(amount)
             case REVENUE => BookedFee(amount)
  {
    var gross := WriteEntry(books, GrossEntry(tenantId, chain, paymentId, amount));
    WriteEntryKeepsBooks(books, GrossEntry(tenantId, chain, paymentId, amount));
    if Fee(amount) > 0 {
      WriteEntryKeepsBooks(gross, FeeEntry(tenantId, chain, paymentId, amount));
    }
  }

  lemma {:induction false} EntriesOfAppend(journal: seq<Entry>, more: seq<Entry>, paymentId: nat)
    ensures EntriesOf(journal + more, paymentId) == EntriesOf(journal, paymentId) + EntriesOf(more, paymentId)
  {
    if more == [] {
      assert journal + more == journal;
    } else {
      var n := |more| - 1;
      EntriesOfAppend(journal, more[..n], paymentId);
      assert (journal + more)[..|journal| + n] == journal + more[..n];
    }
  }

  lemma SettlementEntries(tenantId: string, chain: Chain, paymentId: nat, amount: int, other: nat)
    ensures EntriesOf(Settlement(tenantId, chain, paymentId, amount), other)
         == if other == paymentId then Settlement(tenantId, chain, paymentId, amount) else []
  {
    var g := GrossEntry(tenantId, chain, paymentId, amount);
    var all := Settlement(tenantId, chain, paymentId, amount);
    assert EntriesOf([g], other) == if other == paymentId then [g] else [] by {
      assert EntriesOf([], other) == [];
      assert [g][..0] == [];
    }
    if Fee(amount) > 0 {
      assert all[..1] == [g];
    }
  }

  // Double entry over the journal: debits equal credits per tenant and chain, that is Asset = Liability + Revenue.
  lemma {:induction false} TrialBalance(journal: seq<Entry>, tenantId: string, chain: Chain)
    requires forall e :: e in journal ==> Regular(e)
    ensures NetDebit(journal, Code(tenantId, ASSET, chain))
         == -NetDebit(journal, Code(tenantId, LIABILITY, chain)) + -NetDebit(journal, Code(tenantId, REVENUE, chain))
  {
    if journal != [] {
      var e := journal[|journal| - 1];
      assert e in journal;
      TrialBalance(journal[..|journal| - 1], tenantId, chain);
    }
  }

  // The stored balances add every entry to both accounts, so they obey a different law than the journal ...
  lemma {:induction false} StoredLaw(journal: seq<Entry>, tenantId: string, chain: Chain)
    requires forall e :: e in journal ==> Regular(e)
    ensures Touching(journal, Code(tenantId, LIABILITY, chain))
         == Touching(journal, Code(tenantId, ASSET, chain)) + Touching(journal, Code(tenantId, REVENUE, chain))
  {
    if journal != [] {
      var e := journal[|journal| - 1];
      assert e in journal;
      StoredLaw(journal[..|journal| - 1], tenantId, chain);
    }
  }

  // ... and satisfy the accounting equation exactly while no fee has been booked.
  lemma StoredEquationIffNoFees(books: Books, tenantId: string, chain: Chain)
    requires BooksOk(books)
    ensures Balance(books.accounts, Code(tenantId, ASSET, chain))
         == Balance(books.accounts, Code(tenantId, LIABILITY, chain))
            + Balance(books.accounts, Code(tenantId, REVENUE, chain))
       <==> Balance(books.accounts, Code(tenantId, REVENUE, chain)) == 0
  {
    StoredLaw(books.journal, tenantId, chain);
  }

  // The fee never exceeds half a per cent and falls short of it by less than one unit; a negative
  // amount, which intent creation does not refuse, is where the upper bound stops holding.
  lemma FeeBounds(amount: int)
    ensures BookedFee(amount) * 200 <= amount <==> amount >= 0
    ensures amount >= 0 ==> amount < BookedFee(amount) * 200 + 200
  {
    assert Fee(amount) == amount / 200;
  }

  // ---------------------------------------------------------------- the service

  class LedgerStore {
    var accounts: Accounts
    var journal: seq<Entry>

    constructor ()
      ensures accounts == map[] && journal == []
    {
      accounts, journal := map[], [];
    }

    function Contents(): Books
      reads this
    {
      Books(accounts, journal)
    }

    method Upsert(code: Code, walletId: Option<string>) returns (ok: bool)
      modifies this`accounts
      ensures ok == UpsertAccount(old(accounts), code, walletId).Ok?
      ensures accounts == if ok then UpsertAccount(old(accounts), code, walletId).value else old(accounts)
    {
      if code in accounts {
        return true;
      }
      if walletId.Some? && WalletTaken(accounts, walletId.value) {
        return false;
      }
      accounts := accounts[code := Account(walletId, 0)];
      return true;
    }

    method Ensure(tenantId: string, walletId: string, chain: Chain) returns (ok: bool)
      modifies this`accounts
      ensures (accounts, ok) == EnsureWalletAccounts(old(accounts), tenantId, walletId, chain)
    {
      ok := Upsert(Code(tenantId, ASSET, chain), Some(walletId));
      var _ := Upsert(Code(tenantId, LIABILITY, chain), None);
      var _ := Upsert(Code(tenantId, REVENUE, chain), None);
    }

    method Write(e: Entry)
      requires e.debit in accounts && e.credit in accounts
      modifies this
      ensures Contents() == WriteEntry(old(Contents()), e)
    {
      accounts := accounts[e.debit := accounts[e.debit].(balance := accounts[e.debit].balance + e.amount)];
      accounts := accounts[e.credit := accounts[e.credit].(balance := accounts[e.credit].balance + e.amount)];
      journal := journal + [e];
    }

    // Looks the accounts up, creates them and calls itself once when they are missing, then writes both entries
    // in a transaction of its own, which txFails rolls back.
    method Settle(tenantId: string, walletId: string, chain: Chain, paymentId: nat, amount: int, txFails: bool)
      returns (ok: bool)
      modifies this
      ensures var (ready, found) := ReadyAccounts(old(accounts), tenantId, walletId, chain);
        && ok == (found && !txFails)
        && Contents() == if ok then WriteSettlement(Books(ready, old(journal)), tenantId, chain, paymentId, amount)
                         else Books(ready, old(journal))
      decreases !HasWalletAccounts(accounts, tenantId, chain)
    {
      if !HasWalletAccounts(accounts, tenantId, chain) {
        ok := Ensure(tenantId, walletId, chain);
        if ok {
          ok := Settle(tenantId, walletId, chain, paymentId, amount, txFails);
        }
        return;
      }
      if txFails {
        return false;
      }
      var fee := Fee(amount);
      Write(GrossEntry(tenantId, chain, paymentId, amount));
      if fee > 0 {
        Write(FeeEntry(tenantId, chain, paymentId, amount));
      }
      return true;
    }
  }
}
