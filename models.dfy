/** The records of the cash register (backend/caisseApp/models.py): the entities, the store
    that holds their tables together with the constraints the database enforces, the
    minting of redemption codes and the user manager. */
module Models {
  import opened Wrappers

  // ------------------------------------------------------------------ entities

  /** An `AppUser` row. `points` is a PositiveIntegerField: never negative. */
  datatype User = User(username: string, email: string, points: nat,
                       isActive: bool, isStaff: bool, isSuperuser: bool)

  /** A `Product` row; the price is modelled as an integer amount. */
  datatype Product = Product(id: nat, name: string, price: int)

  /** A `Gift`: a product offered for `pointCost` points. */
  datatype Gift = Gift(productId: nat, pointCost: int)

  /** A `Transaction`: one line item of a sale. */
  datatype Transaction = Transaction(productId: nat, quantity: int)

  /** A `Facture` (receipt) with its many-to-many list of transactions. */
  datatype Facture = Facture(id: nat, userId: nat, transactionIds: seq<nat>)

  /** A `Code` row; its primary key, the cid, is the key of the code table. */
  datatype Code = Code(giftId: nat, userId: nat)

  /** The database refused a write (a unique or a check constraint). */
  datatype DbError = IntegrityError

  /** A freshly built `AppUser`: the field defaults give 0 points and an active account. */
  function NewUser(username: string, email: string, isStaff: bool, isSuperuser: bool): (u: User)
    ensures u.points == 0 && u.isActive
    ensures u.username == username && u.email == email
    ensures u.isStaff == isStaff && u.isSuperuser == isSuperuser
  {
    User(username, email, 0, true, isStaff, isSuperuser)
  }

  // ------------------------------------------------------- table predicates

  /** Primary keys of the product table are distinct. */
  predicate DistinctIds(products: seq<Product>) {
    forall i, j :: 0 <= i < j < |products| ==> products[i].id != products[j].id
  }

  /** `Product.objects.get(pk=id)`: the row with that key, if any. */
  function FindProduct(products: seq<Product>, id: nat): (r: Option<Product>)
    ensures r.Some? ==> r.value in products && r.value.id == id
    ensures r.None? ==> forall i :: 0 <= i < |products| ==> products[i].id != id
  {
    if products == [] then None
    else if products[0].id == id then Some(products[0])
    else FindProduct(products[1..], id)
  }

  /** With distinct keys, looking a catalogue row up by its own key finds that row. */
  lemma {:induction false} FindProductAt(products: seq<Product>, i: nat)
    requires DistinctIds(products) && i < |products|
    ensures FindProduct(products, products[i].id) == Some(products[i])
  {
    if i > 0 {
      assert products[0].id != products[i].id;
      assert products[1..][i - 1] == products[i];
      FindProductAt(products[1..], i - 1);
    }
  }

  predicate UsernameTaken(users: map<nat, User>, username: string) {
    exists id :: id in users && users[id].username == username
  }

  predicate EmailTaken(users: map<nat, User>, email: string) {
    exists id :: id in users && users[id].email == email
  }

  /** The unique constraints on `username` and `email`. */
  predicate UniqueLogins(users: map<nat, User>) {
    forall a, b :: a in users && b in users && a != b ==>
      users[a].username != users[b].username && users[a].email != users[b].email
  }

  /** Every transaction of a receipt exists and names an existing product. */
  predicate Resolves(products: seq<Product>, transactions: map<nat, Transaction>, txIds: seq<nat>) {
    forall j :: 0 <= j < |txIds| ==>
      txIds[j] in transactions && FindProduct(products, transactions[txIds[j]].productId).Some?
  }

  /** Every receipt of the table resolves. */
  predicate AllResolve(products: seq<Product>, transactions: map<nat, Transaction>, factures: seq<Facture>) {
    forall i :: 0 <= i < |factures| ==> Resolves(products, transactions, factures[i].transactionIds)
  }

  /** The user table after `user.points = points`: that one balance changes, nothing else. */
  function WithPoints(users: map<nat, User>, id: nat, points: nat): (r: map<nat, User>)
    requires id in users
    ensures r.Keys == users.Keys
    ensures r[id].points == points
    ensures r[id] == users[id].(points := points)
    ensures forall k :: k in users && k != id ==> r[k] == users[k]
  {
    users[id := users[id].(points := points)]
  }

  // ------------------------------------------------------------------ store

  /** Key uniqueness, the unique columns and every foreign key of the tables; the counters
      are above every key they have handed out. */
  ghost predicate Consistent(users: map<nat, User>, products: seq<Product>, gifts: map<nat, Gift>,
                             codes: map<string, Code>, transactions: map<nat, Transaction>,
                             factures: seq<Facture>, nextUserId: nat, nextTransactionId: nat,
                             nextFactureId: nat)
  {
    && UniqueLogins(users)
    && (forall id :: id in users ==> id < nextUserId)
    && DistinctIds(products)
    && (forall g :: g in gifts ==> FindProduct(products, gifts[g].productId).Some?)
    && (forall c :: c in codes ==> codes[c].giftId in gifts && codes[c].userId in users)
    && (forall t :: t in transactions ==>
          t < nextTransactionId && FindProduct(products, transactions[t].productId).Some?)
    && (forall i :: 0 <= i < |factures| ==>
          factures[i].id < nextFactureId && factures[i].userId in users)
    && (forall i, j :: 0 <= i < j < |factures| ==> factures[i].id != factures[j].id)
    && AllResolve(products, transactions, factures)
  }

  /** The database: one field per table, with auto-increment counters for the keys it
      assigns. The methods here are the writes that the database itself may refuse. */
  class Store {
    var users: map<nat, User>
    var products: seq<Product>
    var gifts: map<nat, Gift>
    var codes: map<string, Code>
    var transactions: map<nat, Transaction>
    var factures: seq<Facture>
    var nextUserId: nat
    var nextTransactionId: nat
    var nextFactureId: nat

    /** A database holding the given catalogue and gifts and nothing else: no users, codes,
        transactions or receipts yet, and every counter at its first key. */
    constructor (catalog: seq<Product>, offered: map<nat, Gift>)
      requires DistinctIds(catalog)
      requires forall g :: g in offered ==> FindProduct(catalog, offered[g].productId).Some?
      ensures Valid()
      ensures users == map[] && products == catalog && gifts == offered && codes == map[]
      ensures transactions == map[] && factures == []
      ensures nextUserId == 0 && nextTransactionId == 0 && nextFactureId == 0
    {
      users := map[];
      products := catalog;
      gifts := offered;
      codes := map[];
      transactions := map[];
      factures := [];
      nextUserId := 0;
      nextTransactionId := 0;
      nextFactureId := 0;
    }

    /** The store's integrity, as Consistent states it. */
    ghost predicate Valid()
      reads this
    {
      Consistent(users, products, gifts, codes, transactions, factures,
                 nextUserId, nextTransactionId, nextFactureId)
    }

    /** The INSERT behind `save()` of a new AppUser: the unique constraints on `username`
        and `email` refuse a duplicate; otherwise the row gets the next key. */
    method InsertUser(u: User) returns (r: Result<nat, DbError>)
      requires Valid()
      modifies this`users, this`nextUserId
      ensures Valid()
      ensures UsernameTaken(old(users), u.username) || EmailTaken(old(users), u.email) ==>
                r == Failure(IntegrityError) && unchanged(this)
      ensures !UsernameTaken(old(users), u.username) && !EmailTaken(old(users), u.email) ==>
                && r == Success(old(nextUserId)) && r.value !in old(users)
                && users == old(users)[r.value := u]
                && nextUserId == old(nextUserId) + 1
    {
      if UsernameTaken(users, u.username) || EmailTaken(users, u.email) {
        r := Failure(IntegrityError);
        return;
      }
      var id := nextUserId;
      users := users[id := u];
      nextUserId := id + 1;
      r := Success(id);
    }

    /** `user.save()` after a change of `points`: the check constraint of the
        PositiveIntegerField refuses a negative balance. */
    method SavePoints(id: nat, points: int) returns (ok: bool)
      requires Valid() && id in users
      modifies this`users
      ensures Valid()
      ensures ok == (points >= 0)
      ensures ok ==> users == WithPoints(old(users), id, points)
      ensures !ok ==> users == old(users)
    {
      ok := points >= 0;
      if ok {
        users := WithPoints(users, id, points);
      }
    }
  }

  // ------------------------------------------------------------ code minting

  /** `string.ascii_letters` has 52 letters; a draw of `secrets.choice` is an index into it. */
  type Pick = p: nat | p < 52

  /** The length of a cid. */
  const CidLength: nat := 12

  predicate IsAsciiLetter(c: char) {
    'a' <= c <= 'z' || 'A' <= c <= 'Z'
  }

  /** A well-formed cid: twelve characters, each an ASCII letter. */
  predicate IsCid(s: string) {
    |s| == CidLength && forall i :: 0 <= i < |s| ==> IsAsciiLetter(s[i])
  }

  /** The letter at position `p` of `string.ascii_letters` (lower case first). */
  function Letter(p: Pick): (c: char)
    ensures IsAsciiLetter(c)
    ensures p < 26 <==> 'a' <= c <= 'z'
  {
    if p < 26 then ('a' as int + p) as char else ('A' as int + (p - 26)) as char
  }

  /** The position of a letter in `string.ascii_letters`. */
  function PickOf(c: char): (p: Pick)
    requires IsAsciiLetter(c)
    ensures Letter(p) == c
  {
    if 'a' <= c <= 'z' then (c as int - 'a' as int) else (c as int - 'A' as int) + 26
  }

  /** Whether the random stream still holds the twelve draws of attempt `k`. */
  predicate HasAttempt(picks: seq<Pick>, k: nat) {
    CidLength * (k + 1) <= |picks|
  }

  /** The candidate cid of attempt `k`: twelve letters, one per draw. */
  function Candidate(picks: seq<Pick>, k: nat): (cid: string)
    requires HasAttempt(picks, k)
    ensures IsCid(cid)
  {
    var cid := seq(CidLength, j requires 0 <= j < CidLength => Letter(picks[CidLength * k + j]));
    assert forall j :: 0 <= j < CidLength ==> IsAsciiLetter(cid[j]) by {
      forall j | 0 <= j < CidLength ensures IsAsciiLetter(cid[j]) {
        assert cid[j] == Letter(picks[CidLength * k + j]);
      }
    }
    cid
  }

  /** Every well-formed cid is the first candidate of some random stream: the generator
      can produce exactly the twelve-letter tokens. */
  lemma CandidateOnto(cid: string)
    requires IsCid(cid)
    ensures exists picks :: HasAttempt(picks, 0) && Candidate(picks, 0) == cid
  {
    var picks := seq(CidLength, j requires 0 <= j < CidLength => PickOf(cid[j]));
    assert HasAttempt(picks, 0);
    assert forall j :: 0 <= j < CidLength ==> Candidate(picks, 0)[j] == cid[j];
    assert Candidate(picks, 0) == cid;
  }

  /** The cid the retry loop settles on, starting at attempt `k`: the first candidate not
      already a key of the code table, or None when the stream runs out first. */
  function FirstFree(codes: map<string, Code>, picks: seq<Pick>, k: nat): (r: Option<string>)
    decreases |picks| - CidLength * k
    ensures r.Some? ==> IsCid(r.value) && r.value !in codes
    ensures r.Some? ==> exists j :: k <= j && HasAttempt(picks, j) && r.value == Candidate(picks, j)
                              && forall i :: k <= i < j ==> Candidate(picks, i) in codes
    ensures r.None? ==> forall j :: k <= j && HasAttempt(picks, j) ==> Candidate(picks, j) in codes
  {
    if !HasAttempt(picks, k) then None
    else if Candidate(picks, k) !in codes then Some(Candidate(picks, k))
    else FirstFree(codes, picks, k + 1)
  }

  /** An unsaved `Code` model instance. */
  class CodeRecord {
    var giftId: nat
    var userId: nat
    var cid: string

    /** `Code(giftId=..., userId=...)`: the cid starts empty. */
    constructor (giftId: nat, userId: nat)
      ensures this.giftId == giftId && this.userId == userId && cid == ""
    {
      this.giftId := giftId;
      this.userId := userId;
      cid := "";
    }

    /** `generate_unique_code`: draw twelve letters per attempt until the candidate is not a
        key of the code table, then assign it. Nothing is assigned if the stream runs out. */
    method GenerateUniqueCode(store: Store, picks: seq<Pick>) returns (found: bool)
      modifies this`cid
      ensures found == FirstFree(store.codes, picks, 0).Some?
      ensures cid == if found then FirstFree(store.codes, picks, 0).value else old(cid)
    {
      var k := 0;
      while HasAttempt(picks, k)
        invariant FirstFree(store.codes, picks, k) == FirstFree(store.codes, picks, 0)
        invariant cid == old(cid)
        decreases |picks| - CidLength * k
      {
        var candidate := Candidate(picks, k);
        if candidate !in store.codes {
          cid := candidate;
          return true;
        }
        k := k + 1;
      }
      found := false;
    }

    /** `save`: a cid is generated only when none is set; the row is then written under its
        cid. When generation finds nothing, nothing is written. */
    method Save(store: Store, picks: seq<Pick>) returns (saved: bool)
      modifies this`cid, store`codes
      ensures old(cid) != "" ==> saved && cid == old(cid)
      ensures old(cid) == "" ==>
                && saved == FirstFree(old(store.codes), picks, 0).Some?
                && cid == if saved then FirstFree(old(store.codes), picks, 0).value else ""
      ensures saved ==> store.codes == old(store.codes)[cid := Code(giftId, userId)]
      ensures !saved ==> store.codes == old(store.codes)
    {
      saved := true;
      if cid == "" {
        saved := GenerateUniqueCode(store, picks);
      }
      if saved {
        store.codes := store.codes[cid := Code(giftId, userId)];
      }
    }
  }

  // ------------------------------------------------------------- user manager

  /** The reasons `AppUserManager` gives for refusing to create a user. */
  datatype ManagerError =
    | UsernameMissing        // 'The Username must be set'
    | EmailMissing           // 'Users must have an email address'
    | StaffRequired          // 'Superuser must have is_staff=True.'
    | SuperuserRequired      // 'Superuser must have is_superuser=True.'
    | Duplicate              // the INSERT hit a unique constraint

  /** The `is_staff` and `is_superuser` entries of `**extra_fields`, when given. */
  datatype ExtraFields = ExtraFields(isStaff: Option<bool>, isSuperuser: Option<bool>)

  function FlagOr(flag: Option<bool>, default: bool): bool {
    if flag.Some? then flag.value else default
  }

  /** `AppUserManager.create_user`: an empty username or email is refused; otherwise the user
      is inserted with the field defaults (0 points, not staff, not superuser). */
  method CreateUser(db: Store, username: string, email: string, extra: ExtraFields)
    returns (r: Result<nat, ManagerError>)
    requires db.Valid()
    modifies db`users, db`nextUserId
    ensures db.Valid()
    ensures username == "" ==> r == Failure(UsernameMissing) && unchanged(db)
    ensures username != "" && email == "" ==> r == Failure(EmailMissing) && unchanged(db)
    ensures username != "" && email != "" ==>
              var u := NewUser(username, email, FlagOr(extra.isStaff, false), FlagOr(extra.isSuperuser, false));
              if UsernameTaken(old(db.users), username) || EmailTaken(old(db.users), email) then
                r == Failure(Duplicate) && unchanged(db)
              else
                && r == Success(old(db.nextUserId)) && r.value !in old(db.users)
                && db.users == old(db.users)[r.value := u]
                && db.nextUserId == old(db.nextUserId) + 1
  {
    if username == "" {
      return Failure(UsernameMissing);
    }
    if email == "" {
      return Failure(EmailMissing);
    }
    var u := NewUser(username, email, FlagOr(extra.isStaff, false), FlagOr(extra.isSuperuser, false));
    var inserted := db.InsertUser(u);
    if inserted.Failure? {
      return Failure(Duplicate);
    }
    r := Success(inserted.value);
  }

  /** `AppUserManager.create_superuser`: both flags default to True and either one set to
      anything else is refused before `create_user` runs. */
  method CreateSuperuser(db: Store, username: string, email: string, extra: ExtraFields)
    returns (r: Result<nat, ManagerError>)
    requires db.Valid()
    modifies db`users, db`nextUserId
    ensures db.Valid()
    ensures extra.isStaff == Some(false) ==> r == Failure(StaffRequired) && unchanged(db)
    ensures extra.isStaff != Some(false) && extra.isSuperuser == Some(false) ==>
              r == Failure(SuperuserRequired) && unchanged(db)
    ensures extra.isStaff != Some(false) && extra.isSuperuser != Some(false) ==>
              && (username == "" ==> r == Failure(UsernameMissing) && unchanged(db))
              && (username != "" && email == "" ==> r == Failure(EmailMissing) && unchanged(db))
              && (username != "" && email != "" ==>
                    if UsernameTaken(old(db.users), username) || EmailTaken(old(db.users), email) then
                      r == Failure(Duplicate) && unchanged(db)
                    else
                      && r == Success(old(db.nextUserId)) && r.value !in old(db.users)
                      && db.users == old(db.users)[r.value := NewUser(username, email, true, true)]
                      && db.nextUserId == old(db.nextUserId) + 1)
  {
    var staff := FlagOr(extra.isStaff, true);
    var superuser := FlagOr(extra.isSuperuser, true);
    if !staff {
      return Failure(StaffRequired);
    }
    if !superuser {
      return Failure(SuperuserRequired);
    }
    r := CreateUser(db, username, email, ExtraFields(Some(staff), Some(superuser)));
  }
}
