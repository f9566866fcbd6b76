/** `CreateOrder` of the order API: idempotency check, balance check, rounding, insert, publish. */
module OrderApi {
  import opened Jobs
  import Money

  datatype Request = Request(key: Key, account: AccountId, amount: real)

  /** An order row, and the job published for it, carry the amount encrypted. */
  datatype Order = Order(key: Key, account: AccountId, amount: Money.Cipher)

  /** The commit may fail, or succeed without the acknowledgement reaching the service. */
  datatype CommitAnswer = Committed | RolledBack | Unacknowledged

  /** What the database and Kafka answer to one request; `seen` is how many of the order rows the reader
      that answers the idempotency check has. */
  datatype Answers = Answers(
    begin: bool, lookup: bool, seen: nat, account: bool,
    encrypt: bool, insert: bool, commit: CommitAnswer, publish: bool)

  datatype Reason = SqlError | Conflict | DecryptionFailed | ParseFailed | InsufficientFunds | EncryptionFailed

  datatype Outcome = Accepted | Rejected(reason: Reason)

  datatype Store = Store(accounts: map<AccountId, Money.Cipher>, rows: seq<Order>, topic: seq<Order>)

  predicate HasKey(rows: seq<Order>, k: Key) {
    exists i :: 0 <= i < |rows| && rows[i].key == k
  }

  /** The rows the reader sees; a primary sees them all. */
  function Visible(s: Store, a: Answers): seq<Order> {
    if a.seen <= |s.rows| then s.rows[..a.seen] else s.rows
  }

  /** Why the transaction is refused before the insert, if it is.  An empty balance column is shorter than
      any ciphertext, so here it does not decrypt. */
  function Refusal(s: Store, r: Request, a: Answers): Option<Reason> {
    if !a.begin || !a.lookup || r.key == 0 then Some(SqlError)
    else if HasKey(Visible(s, a), r.key) then Some(Conflict)
    else if !a.account || r.account !in s.accounts then Some(SqlError)
    else match s.accounts[r.account]
         case Empty => Some(DecryptionFailed)
         case Corrupt => Some(DecryptionFailed)
         case Sealed(plain) =>
           (match Money.Parse(plain)
            case None => Some(ParseFailed)
            case Some(balance) =>
              if balance.ToReal() < r.amount then Some(InsufficientFunds)
              else if !a.encrypt then Some(EncryptionFailed)
              else if !a.insert then Some(SqlError)
              else None)
  }

  /** The row written for a request. */
  function OrderOf(r: Request): Order {
    Order(r.key, r.account, Money.Sealed(Money.CentText(r.amount, Money.ToCents(r.amount))))
  }

  function Next(s: Store, r: Request, a: Answers): Store {
    if Refusal(s, r, a).Some? || a.commit == RolledBack then s
    else if a.commit == Unacknowledged || !a.publish then s.(rows := s.rows + [OrderOf(r)])
    else s.(rows := s.rows + [OrderOf(r)], topic := s.topic + [OrderOf(r)])
  }

  function Answer(s: Store, r: Request, a: Answers): Outcome {
    match Refusal(s, r, a)
    case Some(reason) => Rejected(reason)
    case None => if a.commit == Committed then Accepted else Rejected(SqlError)
  }

  // ----- what a request is to do -----

  /** No call on the way to the commit fails. */
  predicate AllWell(a: Answers) {
    a.begin && a.lookup && a.account && a.encrypt && a.insert
  }

  predicate Seen(s: Store, r: Request, a: Answers) {
    exists i :: 0 <= i < |Visible(s, a)| && Visible(s, a)[i].key == r.key
  }

  /** The balance as it decrypts; an empty column does not. */
  function Balance(s: Store, r: Request): Option<real> {
    if r.account in s.accounts && s.accounts[r.account].Sealed? then Money.Decrypt(s.accounts[r.account]) else None
  }

  /** The request is to be stored: a key that is set and not seen before, a balance that covers the amount. */
  predicate Admissible(s: Store, r: Request, a: Answers) {
    && AllWell(a) && r.key != 0 && !Seen(s, r, a)
    && Balance(s, r).Some? && Balance(s, r).value >= r.amount
  }

  /** A row or a job with the key and the account of the request, and its amount to the nearest cent. */
  predicate IsOrderFor(o: Order, r: Request) {
    && o.key == r.key && o.account == r.account
    && Money.Decrypt(o.amount) == Some(Money.ToCents(r.amount) as real / 100.0)
  }

  /** `after` is `before`, and one order for the request if `added`. */
  predicate Grows(before: seq<Order>, after: seq<Order>, r: Request, added: bool) {
    if added then |after| == |before| + 1 && after[..|before|] == before && IsOrderFor(after[|before|], r)
    else after == before
  }

  class OrderService {
    var store: Store

    constructor (accounts: map<AccountId, Money.Cipher>)
      ensures store == Store(accounts, [], [])
    {
      store := Store(accounts, [], []);
    }

    /** A failed publish is logged and does not fail the request. */
    method CreateOrder(r: Request, a: Answers) returns (out: Outcome)
      modifies this
      ensures store == Next(old(store), r, a) && out == Answer(old(store), r, a)
      ensures out == Accepted <==> Admissible(old(store), r, a) && a.commit == Committed
      ensures Grows(old(store).rows, store.rows, r, Admissible(old(store), r, a) && a.commit != RolledBack)
      ensures Grows(old(store).topic, store.topic, r, out == Accepted && a.publish)
    {
      AdmittedIff(store, r, a);
      if !a.begin || !a.lookup || r.key == 0 {
        return Rejected(SqlError);
      }
      var taken := Lookup(Visible(store, a), r.key);
      if taken {
        return Rejected(Conflict);
      }
      if !a.account || r.account !in store.accounts {
        return Rejected(SqlError);
      }
      var balance := store.accounts[r.account];
      if !balance.Sealed? {
        return Rejected(DecryptionFailed);
      }
      var parsed := Money.Parse(balance.plain);
      if parsed.None? {
        return Rejected(ParseFailed);
      }
      if parsed.value.ToReal() < r.amount {
        return Rejected(InsufficientFunds);
      }
      if !a.encrypt {
        return Rejected(EncryptionFailed);
      }
      if !a.insert || a.commit == RolledBack {
        return Rejected(SqlError);
      }
      var order := OrderOf(r);
      store := store.(rows := store.rows + [order]);
      if a.commit == Unacknowledged {
        return Rejected(SqlError);
      }
      if a.publish {
        store := store.(topic := store.topic + [order]);
      }
      return Accepted;
    }
  }

  /** `SELECT EXISTS`: whether a row with the key is among the visible ones. */
  method Lookup(rows: seq<Order>, k: Key) returns (found: bool)
    ensures found == HasKey(rows, k)
  {
    found := false;
    for i := 0 to |rows|
      invariant found == exists j :: 0 <= j < i && rows[j].key == k
    {
      if rows[i].key == k {
        found := true;
      }
    }
  }

  /** A request is stored if and only if it is admissible and not rolled back, accepted if and only if the commit is
      acknowledged too, and published exactly once if and only if it is accepted and Kafka takes it. */
  lemma AdmittedIff(s: Store, r: Request, a: Answers)
    ensures Answer(s, r, a) == Accepted <==> Admissible(s, r, a) && a.commit == Committed
    ensures Grows(s.rows, Next(s, r, a).rows, r, Admissible(s, r, a) && a.commit != RolledBack)
    ensures Grows(s.topic, Next(s, r, a).topic, r, Admissible(s, r, a) && a.commit == Committed && a.publish)
    ensures Next(s, r, a).accounts == s.accounts
  {
    OrderIsFor(r);
    RefusedUnlessAdmissible(s, r, a);
  }

  lemma OrderIsFor(r: Request)
    ensures IsOrderFor(OrderOf(r), r)
  {
    OrderAmountReads(r);
  }

  lemma RefusedUnlessAdmissible(s: Store, r: Request, a: Answers)
    ensures Refusal(s, r, a).None? <==> Admissible(s, r, a)
  {
  }

  /** Each reason for a refusal, exactly; every other refusal is an SQL error. */
  lemma RefusedBecause(s: Store, r: Request, a: Answers)
    ensures Answer(s, r, a) == Rejected(Conflict) <==> a.begin && a.lookup && r.key != 0 && Seen(s, r, a)
    ensures var found := a.begin && a.lookup && r.key != 0 && !Seen(s, r, a) && a.account && r.account in s.accounts;
            && (Answer(s, r, a) == Rejected(DecryptionFailed) <==> found && !s.accounts[r.account].Sealed?)
            && (Answer(s, r, a) == Rejected(ParseFailed)
                <==> found && s.accounts[r.account].Sealed? && Balance(s, r).None?)
            && (Answer(s, r, a) == Rejected(InsufficientFunds)
                <==> found && Balance(s, r).Some? && Balance(s, r).value < r.amount)
            && (Answer(s, r, a) == Rejected(EncryptionFailed)
                <==> found && Balance(s, r).Some? && Balance(s, r).value >= r.amount && !a.encrypt)
  {
  }

  // ----- serial runs -----

  datatype Served = Served(request: Request, answers: Answers)

  function End(s: Store, calls: seq<Served>): Store
    decreases |calls|
  {
    if calls == [] then s else End(Next(s, calls[0].request, calls[0].answers), calls[1..])
  }

  /** Every idempotency check is answered by a reader that has all rows. */
  predicate ReadsPrimary(s: Store, calls: seq<Served>)
    decreases |calls|
  {
    calls == [] ||
    (calls[0].answers.seen >= |s.rows| && ReadsPrimary(Next(s, calls[0].request, calls[0].answers), calls[1..]))
  }

  ghost predicate KeysUnique(rows: seq<Order>) {
    forall i, j :: 0 <= i < j < |rows| ==> rows[i].key != rows[j].key
  }

  /** Every published job has a row with the same key, account and amount. */
  ghost predicate TopicBacked(s: Store) {
    forall i :: 0 <= i < |s.topic| ==> s.topic[i] in s.rows
  }

  /** The rows that the reader has not seen. */
  function Unseen(s: Store, a: Answers): seq<Order> {
    s.rows[|Visible(s, a)|..]
  }

  /** The request is admitted although its key lies in what its reader has not seen. */
  predicate AdmittedBlindly(s: Store, r: Request, a: Answers) {
    Refusal(s, r, a).None? && a.commit != RolledBack && HasKey(Unseen(s, a), r.key)
  }

  lemma HasKeySplit(s: Store, a: Answers, k: Key)
    ensures HasKey(s.rows, k) <==> HasKey(Visible(s, a), k) || HasKey(Unseen(s, a), k)
  {
    var seen, rest := Visible(s, a), Unseen(s, a);
    assert s.rows == seen + rest;
    if HasKey(s.rows, k) {
      var i :| 0 <= i < |s.rows| && s.rows[i].key == k;
      assert if i < |seen| then seen[i].key == k else rest[i - |seen|].key == k;
    }
    if HasKey(rest, k) {
      var i :| 0 <= i < |rest| && rest[i].key == k;
      assert s.rows[|seen| + i].key == k;
    }
  }

  /** A request keeps the keys unique if and only if it is refused, rolled back, or brings a key that is not
      among the rows its reader has not seen. */
  lemma UniqueIffNotUnseen(s: Store, r: Request, a: Answers)
    requires KeysUnique(s.rows)
    ensures KeysUnique(Next(s, r, a).rows)
            <==> Refusal(s, r, a).Some? || a.commit == RolledBack || !HasKey(Unseen(s, a), r.key)
  {
    var rows := Next(s, r, a).rows;
    HasKeySplit(s, a, r.key);
    if AdmittedBlindly(s, r, a) {
      var i :| 0 <= i < |s.rows| && s.rows[i].key == r.key;
      assert rows[i].key == rows[|s.rows|].key;
    }
  }

  /** No request of the run is admitted blindly. */
  predicate NeverBlind(s: Store, calls: seq<Served>)
    decreases |calls|
  {
    calls == [] ||
    (!AdmittedBlindly(s, calls[0].request, calls[0].answers)
     && NeverBlind(Next(s, calls[0].request, calls[0].answers), calls[1..]))
  }

  /** Rows are never taken back. */
  lemma {:induction false} RowsGrow(s: Store, calls: seq<Served>)
    ensures s.rows <= End(s, calls).rows
    decreases |calls|
  {
    if calls != [] {
      RowsGrow(Next(s, calls[0].request, calls[0].answers), calls[1..]);
    }
  }

  /** Over any serial run, whatever the readers lag: the order rows have distinct keys, at the end and therefore
      throughout, if and only if no request was admitted whose key lay in what its reader had not seen. */
  lemma {:induction false} UniqueIffNeverBlind(s: Store, calls: seq<Served>)
    requires KeysUnique(s.rows)
    ensures KeysUnique(End(s, calls).rows) <==> NeverBlind(s, calls)
    decreases |calls|
  {
    if calls != [] {
      var r, a := calls[0].request, calls[0].answers;
      UniqueIffNotUnseen(s, r, a);
      if KeysUnique(Next(s, r, a).rows) {
        UniqueIffNeverBlind(Next(s, r, a), calls[1..]);
      } else {
        RowsGrow(Next(s, r, a), calls[1..]);
      }
    }
  }

  lemma {:induction false} PrimaryIsNeverBlind(s: Store, calls: seq<Served>)
    requires ReadsPrimary(s, calls)
    ensures NeverBlind(s, calls)
    decreases |calls|
  {
    if calls != [] {
      assert Unseen(s, calls[0].answers) == [];
      PrimaryIsNeverBlind(Next(s, calls[0].request, calls[0].answers), calls[1..]);
    }
  }

  lemma {:induction false} RunKeepsBacked(s: Store, calls: seq<Served>)
    requires TopicBacked(s)
    ensures TopicBacked(End(s, calls))
    decreases |calls|
  {
    if calls != [] {
      RunKeepsBacked(Next(s, calls[0].request, calls[0].answers), calls[1..]);
    }
  }

  /** Over serial requests from an empty store: every published job has a committed row with the same key,
      account and amount, whatever the readers lag, and if they read the primary no two rows share a key. */
  lemma OrdersAdmittedOnce(accounts: map<AccountId, Money.Cipher>, calls: seq<Served>)
    ensures TopicBacked(End(Store(accounts, [], []), calls))
    ensures ReadsPrimary(Store(accounts, [], []), calls) ==> KeysUnique(End(Store(accounts, [], []), calls).rows)
  {
    var s := Store(accounts, [], []);
    RunKeepsBacked(s, calls);
    if ReadsPrimary(s, calls) {
      PrimaryIsNeverBlind(s, calls);
      UniqueIffNeverBlind(s, calls);
    }
  }

  /** An empty balance column: the worker reads it as zero, the order API refuses to decrypt it. */
  lemma EmptyBalanceDiffers(s: Store, r: Request, a: Answers)
    requires r.account in s.accounts && s.accounts[r.account] == Money.Empty
    ensures Money.Decrypt(s.accounts[r.account]) == Some(0.0)
    ensures Next(s, r, a) == s && Answer(s, r, a).Rejected?
    ensures a.begin && a.lookup && r.key != 0 && !HasKey(Visible(s, a), r.key) && a.account ==>
              Answer(s, r, a) == Rejected(DecryptionFailed)
  {
  }

  /** The requests of a run that were accepted and taken by Kafka, in order. */
  function Sent(s: Store, calls: seq<Served>): seq<Request>
    decreases |calls|
  {
    if calls == [] then [] else
    var r, a := calls[0].request, calls[0].answers;
    (if Admissible(s, r, a) && a.commit == Committed && a.publish then [r] else []) + Sent(Next(s, r, a), calls[1..])
  }

  /** `after` is `before` and one order for each of the requests, in their order. */
  ghost predicate Lists(before: seq<Order>, after: seq<Order>, rs: seq<Request>) {
    && |after| == |before| + |rs| && before <= after
    && forall i :: |before| <= i < |after| ==> IsOrderFor(after[i], rs[i - |before|])
  }

  lemma OneMore(before: seq<Order>, mid: seq<Order>, after: seq<Order>, r: Request, added: bool, rs: seq<Request>)
    requires Grows(before, mid, r, added) && Lists(mid, after, rs)
    ensures Lists(before, after, (if added then [r] else []) + rs)
  {
    if added {
      assert after[|before|] == mid[|before|];
    } else {
      assert [] + rs == rs;
    }
  }

  /** Over any serial run the topic lists, after what it held, one job for each of those requests, in their order,
      with their key, account and nearest-cent amount, and nothing else. */
  lemma {:induction false} TopicListsTheAccepted(s: Store, calls: seq<Served>)
    ensures Lists(s.topic, End(s, calls).topic, Sent(s, calls))
    decreases |calls|
  {
    if calls != [] {
      var r, a := calls[0].request, calls[0].answers;
      var next := Next(s, r, a);
      var added := Admissible(s, r, a) && a.commit == Committed && a.publish;
      AdmittedIff(s, r, a);
      TopicListsTheAccepted(next, calls[1..]);
      OneMore(s.topic, next.topic, End(s, calls).topic, r, added, Sent(next, calls[1..]));
    }
  }

  /** A balance of `cents` as the program stores it. */
  function BalanceOf(cents: nat): Money.Cipher {
    Money.Sealed(Money.CentText(cents as real / 100.0, cents))
  }

  /** The stored, cent-rounded amount of an accepted order never exceeds the cent-valued balance it was
      checked against, even when the rounding goes up. */
  lemma StoredAmountCovered(s: Store, r: Request, a: Answers, cents: nat)
    requires r.account in s.accounts && s.accounts[r.account] == BalanceOf(cents)
    requires Next(s, r, a).rows != s.rows
    ensures Next(s, r, a).rows == s.rows + [OrderOf(r)]
    ensures Money.ToCents(r.amount) <= cents
  {
    BalanceReads(cents);
    InsertedIsCovered(s, r, a);
    RoundingStaysBelow(r.amount, cents);
  }

  /** The row, and the job published for it, decrypt to the amount rounded to the nearest cent. */
  lemma OrderAmountReads(r: Request)
    ensures Money.Decrypt(OrderOf(r).amount) == Some(Money.ToCents(r.amount) as real / 100.0)
    ensures Money.IsNearestCent(r.amount, Money.ToCents(r.amount))
  {
    Money.StoredAmountIsNearestCent(r.amount, Money.ToCents(r.amount));
  }

  lemma BalanceReads(cents: nat)
    ensures Money.Decrypt(BalanceOf(cents)) == Some(cents as real / 100.0)
  {
    Money.StoredAmountIsNearestCent(cents as real / 100.0, cents);
  }

  lemma InsertedIsCovered(s: Store, r: Request, a: Answers)
    requires Next(s, r, a).rows != s.rows
    ensures r.account in s.accounts
    ensures Money.Decrypt(s.accounts[r.account]).Some? && r.amount <= Money.Decrypt(s.accounts[r.account]).value
    ensures Next(s, r, a).rows == s.rows + [OrderOf(r)]
  {
  }

  lemma RoundingStaysBelow(amount: real, cents: int)
    requires amount <= cents as real / 100.0
    ensures Money.ToCents(amount) <= cents
  {
    assert 100.0 * amount <= cents as real;
  }

  /** A replica that has not yet seen the first row lets a repeated request through a second time. */
  lemma StaleReplicaDuplicates()
    ensures exists s: Store, r, a: Answers :: KeysUnique(s.rows) && a.seen < |s.rows| && !KeysUnique(Next(s, r, a).rows)
  {
    var r := Request(1, 7, 1.0);
    var s := Store(map[7 := BalanceOf(500)], [OrderOf(r)], []);
    var a := Answers(true, true, 0, true, true, true, Committed, true);
    BalanceCovers(s, r, 500);
    assert Visible(s, a) == [] && Unseen(s, a) == s.rows;
    assert Unseen(s, a)[0].key == 1;
    BlindDuplicates(s, r, a);
  }

  lemma BalanceCovers(s: Store, r: Request, cents: nat)
    requires r.account in s.accounts && s.accounts[r.account] == BalanceOf(cents) && 100.0 * r.amount <= cents as real
    ensures Balance(s, r).Some? && Balance(s, r).value >= r.amount
  {
    BalanceReads(cents);
  }

  lemma BlindDuplicates(s: Store, r: Request, a: Answers)
    requires KeysUnique(s.rows) && Admissible(s, r, a) && a.commit == Committed && HasKey(Unseen(s, a), r.key)
    ensures !KeysUnique(Next(s, r, a).rows)
  {
    AdmittedIff(s, r, a);
    UniqueIffNotUnseen(s, r, a);
  }
}
