/**
  The three SQLite tables the seed writes (clients, coins, transactions), held
  in memory as sequences of rows in insertion order. Each table has an
  AUTOINCREMENT key: a new row gets one more than the largest key the table
  has ever handed out, and dropping the table forgets that counter.
 */
module Store {
  import opened Wrappers

  /** The columns of a client row that the caller supplies. */
  datatype Profile = Profile(name: string, email: string, phone: string, address: string, password: string)

  datatype Client = Client(id: int, profile: Profile)

  /** A coin row; `clientId` is the nullable `client_id` column. */
  datatype Coin = Coin(coinId: int, clientId: Option<int>, bit1: int, bit2: int, bit3: int, value: int)

  /** A transaction row; `date` is the sale time in milliseconds since the epoch, `sellerId` the nullable `seller_id` column. */
  datatype Transaction = Transaction(id: int, coinId: int, sellerId: Option<int>, buyerId: int, amount: int, date: int)

  /** The emails already present in the clients table. */
  function Emails(clients: seq<Client>): set<string> {
    set k | 0 <= k < |clients| :: clients[k].profile.email
  }

  /**
    `SELECT value FROM coins WHERE coin_id = ?` followed by `?.value || 0`:
    the value of the coin with that id, or 0 when there is none.
   */
  function CoinValue(coins: seq<Coin>, coinId: int): (v: int)
    ensures (forall k :: 0 <= k < |coins| ==> coins[k].coinId != coinId) ==> v == 0
    ensures v != 0 ==> exists k :: 0 <= k < |coins| && coins[k].coinId == coinId && coins[k].value == v
    ensures forall k ::
              (0 <= k < |coins| && coins[k].coinId == coinId && forall j :: 0 <= j < k ==> coins[j].coinId != coinId)
              ==> v == coins[k].value
  {
    if coins == [] then 0
    else if coins[0].coinId == coinId then coins[0].value
    else CoinValue(coins[1..], coinId)
  }

  ghost predicate ClientsValid(clients: seq<Client>, clientSeq: nat) {
    && (forall i :: 0 <= i < |clients| ==> 1 <= clients[i].id <= clientSeq)
    && (forall i, j :: 0 <= i < j < |clients| ==> clients[i].id < clients[j].id)
    && (forall i, j :: 0 <= i < j < |clients| ==> clients[i].profile.email != clients[j].profile.email)
  }

  ghost predicate CoinsValid(coins: seq<Coin>, coinSeq: nat) {
    && (forall i :: 0 <= i < |coins| ==> 1 <= coins[i].coinId <= coinSeq)
    && (forall i, j :: 0 <= i < j < |coins| ==> coins[i].coinId < coins[j].coinId)
  }

  ghost predicate TransactionsValid(transactions: seq<Transaction>, transactionSeq: nat) {
    && (forall i :: 0 <= i < |transactions| ==> 1 <= transactions[i].id <= transactionSeq)
    && (forall i, j :: 0 <= i < j < |transactions| ==> transactions[i].id < transactions[j].id)
  }

  class Database {
    var clients: seq<Client>
    var coins: seq<Coin>
    var transactions: seq<Transaction>
    /** The AUTOINCREMENT counters: the largest key handed out so far in each table. */
    var clientSeq: nat
    var coinSeq: nat
    var transactionSeq: nat

    /** Each table's keys are positive, increasing and at most its counter; client emails are unique. */
    ghost predicate Valid()
      reads this
    {
      ClientsValid(clients, clientSeq) && CoinsValid(coins, coinSeq) && TransactionsValid(transactions, transactionSeq)
    }

    /** A new database with the three tables created and empty. */
    constructor ()
      ensures Valid()
      ensures clients == [] && coins == [] && transactions == []
      ensures clientSeq == 0 && coinSeq == 0 && transactionSeq == 0
    {
      clients, coins, transactions := [], [], [];
      clientSeq, coinSeq, transactionSeq := 0, 0, 0;
    }

    /** `DROP TABLE` of all three tables followed by recreating them: empty tables, counters forgotten. */
    method DropAll()
      modifies this
      ensures Valid()
      ensures clients == [] && coins == [] && transactions == []
      ensures clientSeq == 0 && coinSeq == 0 && transactionSeq == 0
    {
      clients, coins, transactions := [], [], [];
      clientSeq, coinSeq, transactionSeq := 0, 0, 0;
    }

    /** `INSERT INTO clients`; the UNIQUE constraint on `email` refuses a second row with the same email. */
    method InsertClient(p: Profile) returns (ok: bool, id: int)
      requires Valid()
      modifies this`clients, this`clientSeq
      ensures Valid()
      ensures ok <==> p.email !in Emails(old(clients))
      ensures ok ==> id == old(clientSeq) + 1 && clientSeq == id && clients == old(clients) + [Client(id, p)]
      ensures !ok ==> clients == old(clients) && clientSeq == old(clientSeq)
    {
      ok := p.email !in Emails(clients);
      id := 0;
      if ok {
        id := clientSeq + 1;
        assert forall i :: 0 <= i < |clients| ==> clients[i].profile.email in Emails(clients);
        clients := clients + [Client(id, p)];
        clientSeq := id;
      }
    }

    /**
      ROLLBACK of a transaction that only inserted clients: the table and its
      AUTOINCREMENT counter return to the state saved when it began.
     */
    method RollbackClients(saved: seq<Client>, savedSeq: nat)
      requires Valid()
      requires |saved| <= |clients| && saved == clients[..|saved|]
      requires forall i :: 0 <= i < |saved| ==> saved[i].id <= savedSeq
      modifies this`clients, this`clientSeq
      ensures Valid()
      ensures clients == saved && clientSeq == savedSeq
    {
      clients, clientSeq := saved, savedSeq;
    }

    /** `INSERT INTO coins`; the owner is not checked against the clients table. */
    method InsertCoin(clientId: Option<int>, bit1: int, bit2: int, bit3: int, value: int) returns (id: int)
      requires Valid()
      modifies this`coins, this`coinSeq
      ensures Valid()
      ensures id == old(coinSeq) + 1 && coinSeq == id
      ensures coins == old(coins) + [Coin(id, clientId, bit1, bit2, bit3, value)]
    {
      id := coinSeq + 1;
      coins := coins + [Coin(id, clientId, bit1, bit2, bit3, value)];
      coinSeq := id;
    }

    /** `INSERT INTO transactions`; coin, seller and buyer are not checked against the other tables. */
    method InsertTransaction(coinId: int, sellerId: Option<int>, buyerId: int, amount: int, date: int) returns (id: int)
      requires Valid()
      modifies this`transactions, this`transactionSeq
      ensures Valid()
      ensures id == old(transactionSeq) + 1 && transactionSeq == id
      ensures transactions == old(transactions) + [Transaction(id, coinId, sellerId, buyerId, amount, date)]
    {
      id := transactionSeq + 1;
      transactions := transactions + [Transaction(id, coinId, sellerId, buyerId, amount, date)];
      transactionSeq := id;
    }
  }
}
