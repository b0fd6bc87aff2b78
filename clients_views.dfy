/** The customer app's views (backend/clientsApp/views.py): redeeming points for a gift code,
    self-registration, and the purchase history of the signed-in customer. */
module ClientsViews {
  import opened Wrappers
  import opened Models
  import CaisseViews

  // --------------------------------------------------------------- createCode

  /** Why `createCode` answers with an error. */
  datatype RedeemError =
    | GiftNotFound      // `Gift.objects.get` raised DoesNotExist
    | UserNotFound      // `AppUser.objects.get` raised DoesNotExist
    | NotEnoughPoints   // 'Not enough points to redeem this gift.'
    | NoFreshCode       // the supplied draws ran out before a free cid came up

  /** `user.points - gift.pointCost`: the balance left after redeeming `gift`. */
  function Debited(user: User, gift: Gift): int {
    user.points - gift.pointCost
  }

  /** `createCode`: look up the gift, then the user, and redeem when the user has enough
      points. Any error before the debit leaves the store as it was. */
  method CreateCode(db: Store, giftId: nat, userId: nat, picks: seq<Pick>)
    returns (r: Result<string, RedeemError>)
    requires db.Valid()
    modifies db`users, db`codes
    ensures db.Valid()
    ensures giftId !in old(db.gifts) ==> r == Failure(GiftNotFound) && unchanged(db)
    ensures giftId in old(db.gifts) && userId !in old(db.users) ==>
              r == Failure(UserNotFound) && unchanged(db)
    ensures giftId in old(db.gifts) && userId in old(db.users)
            && old(db.users)[userId].points < old(db.gifts)[giftId].pointCost ==>
              r == Failure(NotEnoughPoints) && unchanged(db)
    ensures giftId in old(db.gifts) && userId in old(db.users)
            && old(db.users)[userId].points >= old(db.gifts)[giftId].pointCost ==>
              Redeemed(old(db.users), old(db.codes), db.users, db.codes, giftId, old(db.gifts)[giftId], userId, picks, r)
  {
    if giftId !in db.gifts {
      return Failure(GiftNotFound);
    }
    if userId !in db.users {
      return Failure(UserNotFound);
    }
    if db.users[userId].points < db.gifts[giftId].pointCost {
      return Failure(NotEnoughPoints);
    }
    r := RedeemGift(db, giftId, userId, picks);
  }

  /** The outcome of a redemption of `gift` (key `giftId`) by user `userId`: the balance is
      debited by exactly the gift's cost, nothing else in the user table changes, and the code
      table gains the first free cid of the draws, bound to (gift, user), or stays as it was
      when the draws run out. */
  ghost predicate Redeemed(users: map<nat, User>, codes: map<string, Code>,
                           users': map<nat, User>, codes': map<string, Code>,
                           giftId: nat, gift: Gift, userId: nat, picks: seq<Pick>,
                           r: Result<string, RedeemError>)
    requires userId in users && users[userId].points >= gift.pointCost
  {
    && users' == WithPoints(users, userId, Debited(users[userId], gift))
    && userId in users' && users'[userId].points + gift.pointCost == users[userId].points
    && (r.Success? <==> FirstFree(codes, picks, 0).Some?)
    && (r.Success? ==>
          && r.value == FirstFree(codes, picks, 0).value
          && IsCid(r.value) && r.value !in codes
          && codes' == codes[r.value := Code(giftId, userId)])
    && (r.Failure? ==> r.error == NoFreshCode && codes' == codes)
  }

  /** The redeeming branch of `createCode`: `user.points -= gift.pointCost; user.save()`,
      then `Code.objects.create(giftId=gift, userId=user)`. */
  method RedeemGift(db: Store, giftId: nat, userId: nat, picks: seq<Pick>)
    returns (r: Result<string, RedeemError>)
    requires db.Valid() && giftId in db.gifts && userId in db.users
    requires db.users[userId].points >= db.gifts[giftId].pointCost
    modifies db`users, db`codes
    ensures db.Valid()
    ensures Redeemed(old(db.users), old(db.codes), db.users, db.codes, giftId, db.gifts[giftId], userId, picks, r)
  {
    var ok := db.SavePoints(userId, Debited(db.users[userId], db.gifts[giftId]));
    r := MintCode(db, giftId, userId, picks);
  }

  /** `Code.objects.create(giftId=gift, userId=user)`: a new code row whose `save` draws its
      cid. Both keys exist, so the new row keeps the code table's foreign keys intact. */
  method MintCode(db: Store, giftId: nat, userId: nat, picks: seq<Pick>)
    returns (r: Result<string, RedeemError>)
    requires db.Valid() && giftId in db.gifts && userId in db.users
    modifies db`codes
    ensures db.Valid()
    ensures r.Success? <==> FirstFree(old(db.codes), picks, 0).Some?
    ensures r.Success? ==> r.value == FirstFree(old(db.codes), picks, 0).value
                           && db.codes == old(db.codes)[r.value := Code(giftId, userId)]
    ensures r.Failure? ==> r.error == NoFreshCode && db.codes == old(db.codes)
  {
    var code := new CodeRecord(giftId, userId);
    var saved := code.Save(db, picks);
    if saved {
      r := Success(code.cid);
      CodeKeepsConsistent(db.users, db.products, db.gifts, old(db.codes), db.transactions, db.factures,
                          db.nextUserId, db.nextTransactionId, db.nextFactureId, code.cid, giftId, userId);
    } else {
      r := Failure(NoFreshCode);
    }
  }

  /** A code bound to an existing gift and user keeps the store consistent. */
  lemma CodeKeepsConsistent(users: map<nat, User>, products: seq<Product>, gifts: map<nat, Gift>,
                            codes: map<string, Code>, transactions: map<nat, Transaction>,
                            factures: seq<Facture>, nextUserId: nat, nextTransactionId: nat,
                            nextFactureId: nat, cid: string, giftId: nat, userId: nat)
    requires Consistent(users, products, gifts, codes, transactions, factures,
                        nextUserId, nextTransactionId, nextFactureId)
    requires giftId in gifts && userId in users
    ensures Consistent(users, products, gifts, codes[cid := Code(giftId, userId)], transactions, factures,
                       nextUserId, nextTransactionId, nextFactureId)
  {
  }

  // ----------------------------------------------------------------- register

  /** Why `register` refuses. */
  datatype RegisterError =
    | MissingFields     // 'Missing fields'
    | UsernameInUse     // 'Username already taken'
    | EmailInUse        // the INSERT of `objects.create` raised IntegrityError

  /** `register` (POST): all three fields must be non-empty and the username unused; then
      `AppUser.objects.create` inserts a plain customer, which the unique `email` column can
      still refuse. */
  method Register(db: Store, username: string, email: string, password: string)
    returns (r: Result<nat, RegisterError>)
    requires db.Valid()
    modifies db`users, db`nextUserId
    ensures db.Valid()
    ensures username == "" || email == "" || password == "" ==>
              r == Failure(MissingFields) && unchanged(db)
    ensures username != "" && email != "" && password != "" && UsernameTaken(old(db.users), username) ==>
              r == Failure(UsernameInUse) && unchanged(db)
    ensures username != "" && email != "" && password != "" && !UsernameTaken(old(db.users), username)
            && EmailTaken(old(db.users), email) ==>
              r == Failure(EmailInUse) && unchanged(db)
    ensures username != "" && email != "" && password != "" && !UsernameTaken(old(db.users), username)
            && !EmailTaken(old(db.users), email) ==>
              && r == Success(old(db.nextUserId)) && r.value !in old(db.users)
              && db.users == old(db.users)[r.value := NewUser(username, email, false, false)]
              && db.nextUserId == old(db.nextUserId) + 1
  {
    if username == "" || email == "" || password == "" {
      return Failure(MissingFields);
    }
    if UsernameTaken(db.users, username) {
      return Failure(UsernameInUse);
    }
    var inserted := db.InsertUser(NewUser(username, email, false, false));
    if inserted.Failure? {
      return Failure(EmailInUse);
    }
    r := Success(inserted.value);
  }

  /** A successful registration adds exactly one user, and only a fresh username can get
      there: registering the same username twice fails the second time. */
  lemma RegisteredUsernameTaken(users: map<nat, User>, id: nat, username: string, email: string)
    requires id !in users
    ensures UsernameTaken(users[id := NewUser(username, email, false, false)], username)
    ensures |users[id := NewUser(username, email, false, false)].Keys| == |users.Keys| + 1
  {
    var users' := users[id := NewUser(username, email, false, false)];
    assert users'.Keys == users.Keys + {id};
    assert users'[id].username == username;
  }

  // ----------------------------------------------------------- getUserHistory

  /** One line of a history entry: the product sold and the quantity. */
  datatype HistoryLine = HistoryLine(productId: nat, productName: string, productPrice: int, productQuantity: int)

  /** One receipt of the history with its lines. */
  datatype HistoryEntry = HistoryEntry(factureId: nat, lines: seq<HistoryLine>)

  /** The line the history shows for a stored transaction. */
  function LineOf(products: seq<Product>, t: Transaction): (l: HistoryLine)
    requires FindProduct(products, t.productId).Some?
    ensures l.productId == t.productId && l.productQuantity == t.quantity
    ensures exists p :: p in products && p.id == t.productId && l.productName == p.name && l.productPrice == p.price
  {
    var p := FindProduct(products, t.productId).value;
    HistoryLine(p.id, p.name, p.price, t.quantity)
  }

  /** The inner loop: one line per transaction of the receipt, in the receipt's order. */
  function HistoryLines(products: seq<Product>, transactions: map<nat, Transaction>, txIds: seq<nat>)
    : (lines: seq<HistoryLine>)
    requires Resolves(products, transactions, txIds)
    ensures |lines| == |txIds|
    ensures forall j :: 0 <= j < |txIds| ==> lines[j] == LineOf(products, transactions[txIds[j]])
  {
    if txIds == [] then []
    else
      HistoryLines(products, transactions, txIds[..|txIds| - 1])
        + [LineOf(products, transactions[txIds[|txIds| - 1]])]
  }

  /** The entry the history shows for a receipt. */
  function EntryOf(products: seq<Product>, transactions: map<nat, Transaction>, f: Facture): HistoryEntry
    requires Resolves(products, transactions, f.transactionIds)
  {
    HistoryEntry(f.id, HistoryLines(products, transactions, f.transactionIds))
  }

  /** `getUserHistory`: the receipts whose `userId` is the requester, in table order, each
      with its lines. An anonymous requester (`request.user.id` is None) owns none. */
  function UserHistory(products: seq<Product>, transactions: map<nat, Transaction>,
                       factures: seq<Facture>, requester: Option<nat>): seq<HistoryEntry>
    requires AllResolve(products, transactions, factures)
  {
    if factures == [] then []
    else
      var f := factures[|factures| - 1];
      UserHistory(products, transactions, factures[..|factures| - 1], requester)
        + (if requester == Some(f.userId) then [EntryOf(products, transactions, f)] else [])
  }

  /** An entry is in the history exactly when it shows one of the requester's receipts. */
  lemma {:induction false} HistoryExact(products: seq<Product>, transactions: map<nat, Transaction>,
                                        factures: seq<Facture>, requester: Option<nat>)
    requires AllResolve(products, transactions, factures)
    ensures forall e :: e in UserHistory(products, transactions, factures, requester) <==>
              exists i :: 0 <= i < |factures| && requester == Some(factures[i].userId)
                          && e == EntryOf(products, transactions, factures[i])
  {
    if factures != [] {
      var init := factures[..|factures| - 1];
      var f := factures[|factures| - 1];
      assert forall i :: 0 <= i < |init| ==> init[i] == factures[i];
      HistoryExact(products, transactions, init, requester);
      forall e | e in UserHistory(products, transactions, factures, requester)
        ensures exists i :: 0 <= i < |factures| && requester == Some(factures[i].userId)
                            && e == EntryOf(products, transactions, factures[i])
      {
        if e !in UserHistory(products, transactions, init, requester) {
          assert requester == Some(f.userId) && e == EntryOf(products, transactions, f);
          assert factures[|factures| - 1] == f;
        }
      }
    }
  }

  /** The history of an anonymous requester is empty. */
  lemma {:induction false} AnonymousHistoryEmpty(products: seq<Product>, transactions: map<nat, Transaction>,
                                                 factures: seq<Facture>)
    requires AllResolve(products, transactions, factures)
    ensures UserHistory(products, transactions, factures, None) == []
  {
    if factures != [] {
      AnonymousHistoryEmpty(products, transactions, factures[..|factures| - 1]);
    }
  }

  /** The history counts one entry per receipt of the requester. */
  function OwnedCount(factures: seq<Facture>, uid: nat): nat {
    if factures == [] then 0
    else OwnedCount(factures[..|factures| - 1], uid) + (if factures[|factures| - 1].userId == uid then 1 else 0)
  }

  lemma {:induction false} HistoryLength(products: seq<Product>, transactions: map<nat, Transaction>,
                                         factures: seq<Facture>, uid: nat)
    requires AllResolve(products, transactions, factures)
    ensures |UserHistory(products, transactions, factures, Some(uid))| == OwnedCount(factures, uid)
  {
    if factures != [] {
      HistoryLength(products, transactions, factures[..|factures| - 1], uid);
    }
  }

  /** The sum of `productPrice * productQuantity` over the lines of an entry. */
  function LinesCost(lines: seq<HistoryLine>): int {
    if lines == [] then 0
    else LinesCost(lines[..|lines| - 1]) + lines[|lines| - 1].productPrice * lines[|lines| - 1].productQuantity
  }

  /** The lines of a history entry cost what the `facture` view reports for that receipt. */
  lemma {:induction false} EntryMatchesReceipt(products: seq<Product>, transactions: map<nat, Transaction>,
                                               txIds: seq<nat>)
    requires Resolves(products, transactions, txIds)
    ensures LinesCost(HistoryLines(products, transactions, txIds))
         == CaisseViews.ReceiptTotal(products, transactions, txIds)
  {
    if txIds != [] {
      var init := txIds[..|txIds| - 1];
      EntryMatchesReceipt(products, transactions, init);
      var lines := HistoryLines(products, transactions, txIds);
      assert lines[..|lines| - 1] == HistoryLines(products, transactions, init);
    }
  }

  /** Transactions that are kept as they were do not change the lines of a receipt. */
  lemma {:induction false} LinesStable(products: seq<Product>, before: map<nat, Transaction>,
                                       after: map<nat, Transaction>, txIds: seq<nat>)
    requires Resolves(products, before, txIds)
    requires forall t :: t in before ==> t in after && after[t] == before[t]
    ensures Resolves(products, after, txIds)
    ensures HistoryLines(products, after, txIds) == HistoryLines(products, before, txIds)
  {
    if txIds != [] {
      LinesStable(products, before, after, txIds[..|txIds| - 1]);
    }
  }

  /** A sale that appends receipt `f` and only adds transactions extends the history of
      f's customer by f's entry and leaves every other requester's history as it was. */
  lemma {:induction false} HistoryAfterSale(products: seq<Product>, before: map<nat, Transaction>,
                                            after: map<nat, Transaction>, factures: seq<Facture>,
                                            f: Facture, requester: Option<nat>)
    requires AllResolve(products, before, factures)
    requires forall t :: t in before ==> t in after && after[t] == before[t]
    requires Resolves(products, after, f.transactionIds)
    ensures AllResolve(products, after, factures + [f])
    ensures UserHistory(products, after, factures + [f], requester)
         == UserHistory(products, before, factures, requester)
            + (if requester == Some(f.userId) then [EntryOf(products, after, f)] else [])
  {
    HistoryStable(products, before, after, factures, requester);
    var all := factures + [f];
    forall i | 0 <= i < |all|
      ensures Resolves(products, after, all[i].transactionIds)
    {
      if i < |factures| {
        assert all[i] == factures[i];
        LinesStable(products, before, after, factures[i].transactionIds);
      }
    }
    assert all[..|all| - 1] == factures;
  }

  /** UserHistory depends only on the transactions its receipts name. */
  lemma {:induction false} HistoryStable(products: seq<Product>, before: map<nat, Transaction>,
                                         after: map<nat, Transaction>, factures: seq<Facture>,
                                         requester: Option<nat>)
    requires AllResolve(products, before, factures)
    requires forall t :: t in before ==> t in after && after[t] == before[t]
    ensures AllResolve(products, after, factures)
    ensures UserHistory(products, after, factures, requester) == UserHistory(products, before, factures, requester)
  {
    forall i | 0 <= i < |factures|
      ensures Resolves(products, after, factures[i].transactionIds)
    {
      LinesStable(products, before, after, factures[i].transactionIds);
    }
    if factures != [] {
      var init := factures[..|factures| - 1];
      var f := factures[|factures| - 1];
      assert forall i :: 0 <= i < |init| ==> init[i] == factures[i];
      HistoryStable(products, before, after, init, requester);
      LinesStable(products, before, after, f.transactionIds);
    }
  }
}
