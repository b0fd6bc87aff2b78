/** The staff console's ledger views (backend/caisseApp/views.py): ringing up a sale into a
    receipt and crediting points (`caisse`), recomputing a receipt's total (`facture`), and
    looking a redemption code up (`scanGiftCode`). */
module CaisseViews {
  import opened Wrappers
  import opened Models

  // ------------------------------------------------------------------ points

  /** Currency units per loyalty point. */
  const PointsRate: int := 50

  /** `total // 50`: the points a sale earns, rounded down (also for a negative total). */
  function PointsFor(total: int): (points: int)
    ensures 50 * points <= total < 50 * points + 50
    ensures 0 <= total ==> 0 <= points <= total
  {
    total / PointsRate
  }

  /** `user.points += total // 50`: the customer's balance once a sale of `total` is credited. */
  function Rebalanced(user: User, total: int): int {
    user.points + PointsFor(total)
  }

  // ----------------------------------------------------------- the sale form

  function DigitChar(d: nat): (c: char)
    requires d < 10
    ensures '0' <= c <= '9' && c as int == '0' as int + d
  {
    ('0' as int + d) as char
  }

  predicate AllDigits(s: string) {
    forall i :: 0 <= i < |s| ==> '0' <= s[i] <= '9'
  }

  /** `str(n)` for a key: its decimal digits. */
  function DecimalString(n: nat): (s: string)
    ensures 1 <= |s| && AllDigits(s)
    ensures |s| > 1 ==> s[0] != '0'
  {
    if n < 10 then [DigitChar(n)] else DecimalString(n / 10) + [DigitChar(n % 10)]
  }

  /** The number a string of decimal digits spells. */
  function DecimalValue(s: string): nat
    requires AllDigits(s)
  {
    if s == [] then 0 else 10 * DecimalValue(s[..|s| - 1]) + (s[|s| - 1] as int - '0' as int)
  }

  lemma {:induction false} DecimalRoundTrip(n: nat)
    ensures DecimalValue(DecimalString(n)) == n
  {
    var s := DecimalString(n);
    if n >= 10 {
      DecimalRoundTrip(n / 10);
      assert s[..|s| - 1] == DecimalString(n / 10);
    }
  }

  /** A submitted id string selects at most one key: `str` is injective. */
  lemma SelectionIsByKey(a: nat, b: nat)
    requires DecimalString(a) == DecimalString(b)
    ensures a == b
  {
    DecimalRoundTrip(a);
    DecimalRoundTrip(b);
  }

  /** The POSTed form: `userId`, the `products` list, and the `quantity_<id>` fields that were
      submitted, already read as integers. */
  datatype SaleForm = SaleForm(userId: nat, products: seq<string>, quantities: map<nat, int>)

  /** A product of the catalogue together with the quantity sold. */
  datatype Line = Line(product: Product, quantity: int)

  /** `str(product.id) in request.POST.getlist('products')` */
  predicate Selected(form: SaleForm, p: Product) {
    DecimalString(p.id) in form.products
  }

  /** `int(request.POST.get(f"quantity_{id}", 1))` */
  function QuantityOf(form: SaleForm, id: nat): int {
    if id in form.quantities then form.quantities[id] else 1
  }

  /** The lines of a sale: the selected catalogue products, in catalogue order. */
  function SaleLines(catalog: seq<Product>, form: SaleForm): seq<Line> {
    if catalog == [] then []
    else
      var p := catalog[|catalog| - 1];
      SaleLines(catalog[..|catalog| - 1], form)
        + (if Selected(form, p) then [Line(p, QuantityOf(form, p.id))] else [])
  }

  function LineCost(l: Line): int {
    l.product.price * l.quantity
  }

  /** The `total` accumulated by the sale loop. */
  function LinesTotal(lines: seq<Line>): int {
    if lines == [] then 0 else LinesTotal(lines[..|lines| - 1]) + LineCost(lines[|lines| - 1])
  }

  /** Reference definition of the sale total: the sum of `price * quantity` over the
      catalogue products that the form selects. */
  function SelectedSum(catalog: seq<Product>, form: SaleForm): int {
    if catalog == [] then 0
    else
      (if Selected(form, catalog[0]) then catalog[0].price * QuantityOf(form, catalog[0].id) else 0)
        + SelectedSum(catalog[1..], form)
  }

  // ------------------------------------------------------ properties of a sale

  /** A line is in the sale exactly when its product is a selected catalogue product and its
      quantity is the submitted one (1 when the field is absent). */
  lemma {:induction false} SaleLinesExact(catalog: seq<Product>, form: SaleForm)
    ensures forall l :: l in SaleLines(catalog, form) <==>
              l.product in catalog && Selected(form, l.product) && l.quantity == QuantityOf(form, l.product.id)
  {
    if catalog != [] {
      var init := catalog[..|catalog| - 1];
      SaleLinesExact(init, form);
      assert catalog == init + [catalog[|catalog| - 1]];
    }
  }

  /** With distinct catalogue keys, no product is sold on two lines: together with
      SaleLinesExact, each selected product gets exactly one line. */
  lemma {:induction false} SaleLinesDistinct(catalog: seq<Product>, form: SaleForm)
    requires DistinctIds(catalog)
    ensures forall i, j :: 0 <= i < j < |SaleLines(catalog, form)| ==>
              SaleLines(catalog, form)[i].product.id != SaleLines(catalog, form)[j].product.id
  {
    if catalog != [] {
      var init := catalog[..|catalog| - 1];
      var last := catalog[|catalog| - 1];
      SaleLinesDistinct(init, form);
      SaleLinesExact(init, form);
      var rest := SaleLines(init, form);
      forall i | 0 <= i < |rest| ensures rest[i].product.id != last.id {
        assert rest[i] in rest;
        var k :| 0 <= k < |init| && init[k] == rest[i].product;
        assert catalog[k] == init[k];
      }
      var lines := SaleLines(catalog, form);
      assert lines == rest + (if Selected(form, last) then [Line(last, QuantityOf(form, last.id))] else []);
      forall i, j | 0 <= i < j < |lines|
        ensures lines[i].product.id != lines[j].product.id
      {
        assert lines[i] == rest[i];
        if j < |rest| {
          assert lines[j] == rest[j];
        } else {
          assert lines[j].product == last;
        }
      }
    }
  }

  /** The sale depends on the submitted ids only through which catalogue products they
      select. */
  lemma {:induction false} SaleLinesBySelection(catalog: seq<Product>, f: SaleForm, g: SaleForm)
    requires f.quantities == g.quantities
    requires forall p :: p in catalog ==> (Selected(f, p) <==> Selected(g, p))
    ensures SaleLines(catalog, f) == SaleLines(catalog, g)
  {
    if catalog != [] {
      var init := catalog[..|catalog| - 1];
      assert forall p :: p in init ==> p in catalog;
      SaleLinesBySelection(init, f, g);
    }
  }

  /** Submitted ids that name no catalogue product contribute nothing. */
  lemma UnknownIdsIgnored(catalog: seq<Product>, form: SaleForm, extra: seq<string>)
    requires forall s, p :: s in extra && p in catalog ==> s != DecimalString(p.id)
    ensures SaleLines(catalog, form.(products := form.products + extra)) == SaleLines(catalog, form)
  {
    SaleLinesBySelection(catalog, form.(products := form.products + extra), form);
  }

  /** A form that selects nothing still makes an empty sale of total 0, which earns 0 points. */
  lemma NothingSelected(catalog: seq<Product>, form: SaleForm)
    requires forall p :: p in catalog ==> !Selected(form, p)
    ensures SaleLines(catalog, form) == []
    ensures LinesTotal(SaleLines(catalog, form)) == 0 && PointsFor(0) == 0
  {
    SaleLinesExact(catalog, form);
  }

  lemma {:induction false} LinesTotalAppend(a: seq<Line>, b: seq<Line>)
    ensures LinesTotal(a + b) == LinesTotal(a) + LinesTotal(b)
  {
    if b != [] {
      LinesTotalAppend(a, b[..|b| - 1]);
      assert (a + b)[..|a + b| - 1] == a + b[..|b| - 1];
    } else {
      assert a + b == a;
    }
  }

  /** The accumulated total equals the reference sum over the selected products. */
  lemma {:induction false} SaleTotalIsSelectedSum(catalog: seq<Product>, form: SaleForm)
    ensures LinesTotal(SaleLines(catalog, form)) == SelectedSum(catalog, form)
  {
    if catalog != [] {
      var head := catalog[0];
      var tail := catalog[1..];
      SaleTotalIsSelectedSum(tail, form);
      SaleLinesSplit(catalog, form);
      var first := if Selected(form, head) then [Line(head, QuantityOf(form, head.id))] else [];
      LinesTotalAppend(first, SaleLines(tail, form));
      if first != [] {
        assert first[..0] == [];
      }
    }
  }

  /** Unfolding SaleLines from the front of the catalogue. */
  lemma {:induction false} SaleLinesSplit(catalog: seq<Product>, form: SaleForm)
    requires catalog != []
    ensures SaleLines(catalog, form)
         == (if Selected(form, catalog[0]) then [Line(catalog[0], QuantityOf(form, catalog[0].id))] else [])
            + SaleLines(catalog[1..], form)
  {
    if |catalog| > 1 {
      var init := catalog[..|catalog| - 1];
      SaleLinesSplit(init, form);
      assert init[0] == catalog[0];
      assert init[1..] == catalog[1..][..|catalog[1..]| - 1];
    } else {
      assert catalog[..0] == [];
      assert catalog[1..] == [];
    }
  }

  // ------------------------------------------------------------ receipt totals

  /** `sum(t.productId.price * t.quantity for t in transactions)`, with the live catalogue
      price. */
  function ReceiptTotal(products: seq<Product>, transactions: map<nat, Transaction>, txIds: seq<nat>): int
    requires Resolves(products, transactions, txIds)
  {
    if txIds == [] then 0
    else
      var t := transactions[txIds[|txIds| - 1]];
      ReceiptTotal(products, transactions, txIds[..|txIds| - 1])
        + FindProduct(products, t.productId).value.price * t.quantity
  }

  /** The receipt of the table with key `id`, if any. */
  function FindFacture(factures: seq<Facture>, id: nat): (r: Option<Facture>)
    ensures r.Some? ==> r.value in factures && r.value.id == id
    ensures r.None? ==> forall i :: 0 <= i < |factures| ==> factures[i].id != id
  {
    if factures == [] then None
    else if factures[0].id == id then Some(factures[0])
    else FindFacture(factures[1..], id)
  }

  /** `facture`: the `total_cost` of the receipt with key `id`; None where
      `Facture.objects.get` raises. */
  function FactureTotal(products: seq<Product>, transactions: map<nat, Transaction>,
                        factures: seq<Facture>, id: nat): (r: Option<int>)
    requires AllResolve(products, transactions, factures)
    ensures r.None? <==> forall i :: 0 <= i < |factures| ==> factures[i].id != id
    ensures r.Some? ==> exists i :: 0 <= i < |factures| && factures[i].id == id
                          && r.value == ReceiptTotal(products, transactions, factures[i].transactionIds)
  {
    match FindFacture(factures, id)
    case None => None
    case Some(f) => Some(ReceiptTotal(products, transactions, f.transactionIds))
  }

  /** The keys `start`, `start + 1`, ... given to `n` new rows. */
  function KeyRange(start: nat, n: nat): (keys: seq<nat>)
    ensures |keys| == n && forall j :: 0 <= j < n ==> keys[j] == start + j
  {
    seq(n, j => start + j)
  }

  /** `after` is `before` plus one new transaction per line, under the keys from `start` on. */
  ghost predicate RecordsLines(before: map<nat, Transaction>, after: map<nat, Transaction>,
                               start: nat, lines: seq<Line>)
  {
    && (forall t :: t in after <==> t in before || start <= t < start + |lines|)
    && (forall t :: t in before ==> t < start && after[t] == before[t])
    && (forall j :: 0 <= j < |lines| ==>
          after[start + j] == Transaction(lines[j].product.id, lines[j].quantity))
  }

  /** The transactions of `lines` are stored under the keys `start`, `start + 1`, ... */
  ghost predicate StoredFrom(after: map<nat, Transaction>, start: nat, lines: seq<Line>) {
    forall j :: 0 <= j < |lines| ==>
      start + j in after && after[start + j] == Transaction(lines[j].product.id, lines[j].quantity)
  }

  /** The receipt of a sale, recomputed from its stored transactions, totals to the sale's
      accumulated total. */
  lemma ReceiptMatchesSale(catalog: seq<Product>, after: map<nat, Transaction>,
                           start: nat, lines: seq<Line>)
    requires DistinctIds(catalog)
    requires forall l :: l in lines ==> l.product in catalog
    requires StoredFrom(after, start, lines)
    ensures Resolves(catalog, after, KeyRange(start, |lines|))
    ensures ReceiptTotal(catalog, after, KeyRange(start, |lines|)) == LinesTotal(lines)
  {
    ReceiptPrefixMatches(catalog, after, start, lines, |lines|);
    assert lines[..|lines|] == lines;
  }

  /** ReceiptMatchesSale for the first `n` lines, by induction on `n`. */
  lemma {:induction false} ReceiptPrefixMatches(catalog: seq<Product>, after: map<nat, Transaction>,
                                                start: nat, lines: seq<Line>, n: nat)
    requires DistinctIds(catalog)
    requires forall l :: l in lines ==> l.product in catalog
    requires StoredFrom(after, start, lines)
    requires n <= |lines|
    ensures Resolves(catalog, after, KeyRange(start, n))
    ensures ReceiptTotal(catalog, after, KeyRange(start, n)) == LinesTotal(lines[..n])
  {
    var keys := KeyRange(start, n);
    forall j | 0 <= j < n
      ensures keys[j] in after
      ensures FindProduct(catalog, after[keys[j]].productId) == Some(lines[j].product)
    {
      assert lines[j] in lines;
      var k :| 0 <= k < |catalog| && catalog[k] == lines[j].product;
      FindProductAt(catalog, k);
    }
    if n > 0 {
      ReceiptPrefixMatches(catalog, after, start, lines, n - 1);
      assert keys[..n - 1] == KeyRange(start, n - 1);
      assert lines[..n][..n - 1] == lines[..n - 1];
    }
  }

  /** One step of the sale loop: a selected product adds its line at the end. */
  lemma SaleLinesStep(catalog: seq<Product>, form: SaleForm, i: nat)
    requires i < |catalog|
    ensures SaleLines(catalog[..i + 1], form)
         == SaleLines(catalog[..i], form)
            + (if Selected(form, catalog[i]) then [Line(catalog[i], QuantityOf(form, catalog[i].id))] else [])
  {
    assert catalog[..i + 1][..i] == catalog[..i];
  }

  /** The key of one more line extends the receipt's key range by that key. */
  lemma KeysOneMore(start: nat, lines: seq<Line>, l: Line, key: nat)
    requires key == start + |lines|
    ensures KeyRange(start, |lines + [l]|) == KeyRange(start, |lines|) + [key]
  {
  }

  /** Storing the transaction of one more line keeps RecordsLines. */
  lemma RecordsOneMore(before: map<nat, Transaction>, after: map<nat, Transaction>,
                       start: nat, lines: seq<Line>, l: Line, key: nat)
    requires RecordsLines(before, after, start, lines)
    requires key == start + |lines|
    ensures RecordsLines(before, after[key := Transaction(l.product.id, l.quantity)], start, lines + [l])
  {
    var lines' := lines + [l];
    var after' := after[key := Transaction(l.product.id, l.quantity)];
    forall j | 0 <= j < |lines'|
      ensures after'[start + j] == Transaction(lines'[j].product.id, lines'[j].quantity)
    {
      if j < |lines| {
        assert lines'[j] == lines[j];
      }
    }
  }

  /** A recorded sale for an existing customer keeps the store consistent. */
  lemma SaleKeepsConsistent(users: map<nat, User>, products: seq<Product>, gifts: map<nat, Gift>,
                            codes: map<string, Code>, before: map<nat, Transaction>,
                            after: map<nat, Transaction>, factures: seq<Facture>,
                            nextUserId: nat, start: nat, fid: nat, uid: nat, lines: seq<Line>)
    requires Consistent(users, products, gifts, codes, before, factures, nextUserId, start, fid)
    requires uid in users
    requires forall l :: l in lines ==> l.product in products
    requires RecordsLines(before, after, start, lines)
    ensures Consistent(users, products, gifts, codes, after,
                       factures + [Facture(fid, uid, KeyRange(start, |lines|))],
                       nextUserId, start + |lines|, fid + 1)
  {
    ReceiptMatchesSale(products, after, start, lines);
    forall t | t in after
      ensures FindProduct(products, after[t].productId).Some?
    {
      if t !in before {
        var j := t - start;
        assert lines[j] in lines;
        var k :| 0 <= k < |products| && products[k] == lines[j].product;
        FindProductAt(products, k);
      }
    }
    var factures' := factures + [Facture(fid, uid, KeyRange(start, |lines|))];
    ReceiptKeysAppended(users, factures, Facture(fid, uid, KeyRange(start, |lines|)));
    forall f | 0 <= f < |factures'|
      ensures Resolves(products, after, factures'[f].transactionIds)
    {
      if f < |factures| {
        assert factures'[f] == factures[f];
        assert Resolves(products, before, factures[f].transactionIds);
      }
    }
  }

  /** A receipt saved under a key above every existing one, for an existing customer, keeps
      the receipt keys distinct and every receipt's customer resolvable. */
  lemma ReceiptKeysAppended(users: map<nat, User>, factures: seq<Facture>, f: Facture)
    requires forall i :: 0 <= i < |factures| ==> factures[i].id < f.id && factures[i].userId in users
    requires forall i, j :: 0 <= i < j < |factures| ==> factures[i].id != factures[j].id
    requires f.userId in users
    ensures forall i :: 0 <= i < |factures + [f]| ==>
              (factures + [f])[i].id < f.id + 1 && (factures + [f])[i].userId in users
    ensures forall i, j :: 0 <= i < j < |factures + [f]| ==> (factures + [f])[i].id != (factures + [f])[j].id
  {
    var all := factures + [f];
    forall i, j | 0 <= i < j < |all|
      ensures all[i].id != all[j].id
    {
      assert all[i] == factures[i];
      if j < |factures| {
        assert all[j] == factures[j];
      }
    }
  }

  // ------------------------------------------------------------------- caisse

  datatype SaleError =
    | UserNotFound      // 'AppUser does not exist!'
    | PointsRejected    // `user.save()` refused a negative balance

  /** `caisse` (POST): ring up the selected products for a customer. An unknown customer
      changes nothing. Otherwise a receipt is saved first, then one transaction per selected
      catalogue product is saved and attached to it, and finally the customer's balance
      moves by `total // 50`; if that balance would be negative the database refuses it and
      the receipt stays without the points. */
  method Caisse(db: Store, form: SaleForm) returns (r: Result<nat, SaleError>)
    requires db.Valid()
    modifies db`users, db`factures, db`nextFactureId, db`transactions, db`nextTransactionId
    ensures db.Valid()
    ensures form.userId !in old(db.users) ==> r == Failure(UserNotFound) && unchanged(db)
    ensures form.userId in old(db.users) ==>
              var lines := SaleLines(old(db.products), form);
              var fid := old(db.nextFactureId);
              var txIds := KeyRange(old(db.nextTransactionId), |lines|);
              var balance := Rebalanced(old(db.users)[form.userId], LinesTotal(lines));
              && db.factures == old(db.factures) + [Facture(fid, form.userId, txIds)]
              && RecordsLines(old(db.transactions), db.transactions, old(db.nextTransactionId), lines)
              && FactureTotal(db.products, db.transactions, db.factures, fid) == Some(LinesTotal(lines))
              && db.nextTransactionId == old(db.nextTransactionId) + |lines|
              && db.nextFactureId == fid + 1
              && (balance >= 0 ==>
                    && r == Success(fid)
                    && db.users == WithPoints(old(db.users), form.userId, balance))
              && (balance < 0 ==> r == Failure(PointsRejected) && db.users == old(db.users))
  {
    if form.userId !in db.users {
      return Failure(UserNotFound);
    }
    var user := db.users[form.userId];
    ghost var lines := SaleLines(db.products, form);
    var fid := OpenFacture(db, form.userId);
    ghost var withReceipt := db.factures;
    assert withReceipt[..|withReceipt| - 1] == old(db.factures);
    var total := AddSelectedProducts(db, form, fid);
    SaleRecordedKeepsValid(db, form, fid, old(db.transactions), withReceipt, old(db.nextTransactionId), lines);
    assert total == LinesTotal(lines);
    var ok := db.SavePoints(form.userId, Rebalanced(user, total));
    r := if ok then Success(fid) else Failure(PointsRejected);
  }

  /** `fac = Facture(userId=user); fac.save()`: an empty receipt under the next key. */
  method OpenFacture(db: Store, uid: nat) returns (fid: nat)
    requires db.Valid() && uid in db.users
    modifies db`factures, db`nextFactureId
    ensures db.Valid()
    ensures fid == old(db.nextFactureId) && db.nextFactureId == fid + 1
    ensures db.factures == old(db.factures) + [Facture(fid, uid, [])]
  {
    fid := db.nextFactureId;
    db.factures := db.factures + [Facture(fid, uid, [])];
    db.nextFactureId := fid + 1;
  }

  /** The `for product in products` loop of `caisse`: for each catalogue product the form
      selects, add `price * quantity` to the total, save a transaction under the next key and
      attach it to the receipt `fid`, the last row of the receipt table. */
  method AddSelectedProducts(db: Store, form: SaleForm, fid: nat) returns (total: int)
    requires db.factures != [] && db.factures[|db.factures| - 1] == Facture(fid, form.userId, [])
    requires forall t :: t in db.transactions ==> t < db.nextTransactionId
    modifies db`transactions, db`nextTransactionId, db`factures
    ensures total == LinesTotal(SaleLines(db.products, form))
    ensures db.factures == old(db.factures)[..|old(db.factures)| - 1]
                           + [Facture(fid, form.userId, KeyRange(old(db.nextTransactionId), |SaleLines(db.products, form)|))]
    ensures RecordsLines(old(db.transactions), db.transactions, old(db.nextTransactionId), SaleLines(db.products, form))
    ensures db.nextTransactionId == old(db.nextTransactionId) + |SaleLines(db.products, form)|
  {
    var catalog := db.products;
    var start := db.nextTransactionId;
    ghost var before := db.transactions;
    ghost var earlier := db.factures[..|db.factures| - 1];
    assert db.factures == earlier + [Facture(fid, form.userId, [])];
    total := 0;
    var txIds: seq<nat> := [];
    ghost var lines: seq<Line> := [];
    var i := 0;
    while i < |catalog|
      invariant 0 <= i <= |catalog|
      invariant lines == SaleLines(catalog[..i], form)
      invariant total == LinesTotal(lines)
      invariant txIds == KeyRange(start, |lines|)
      invariant db.nextTransactionId == start + |lines|
      invariant RecordsLines(before, db.transactions, start, lines)
      invariant db.factures == earlier + [Facture(fid, form.userId, txIds)]
    {
      var product := catalog[i];
      SaleLinesStep(catalog, form, i);
      if DecimalString(product.id) in form.products {
        var quantity := QuantityOf(form, product.id);
        var line := Line(product, quantity);
        LineRecorded(before, db.transactions, start, lines, line, db.nextTransactionId);
        total := total + product.price * quantity;
        txIds := SaveLine(db, fid, form.userId, txIds, product.id, quantity);
        lines := lines + [line];
        assert db.factures == earlier + [Facture(fid, form.userId, txIds)];
      }
      i := i + 1;
    }
    assert catalog[..i] == catalog;
  }

  /** One more line of the sale loop: its transaction under the next key keeps RecordsLines,
      the key extends the receipt's key range and its cost adds to the total. */
  lemma LineRecorded(before: map<nat, Transaction>, after: map<nat, Transaction>,
                     start: nat, lines: seq<Line>, l: Line, key: nat)
    requires RecordsLines(before, after, start, lines)
    requires key == start + |lines|
    ensures RecordsLines(before, after[key := Transaction(l.product.id, l.quantity)], start, lines + [l])
    ensures KeyRange(start, |lines + [l]|) == KeyRange(start, |lines|) + [key]
    ensures LinesTotal(lines + [l]) == LinesTotal(lines) + l.product.price * l.quantity
  {
    RecordsOneMore(before, after, start, lines, l, key);
    KeysOneMore(start, lines, l, key);
    assert (lines + [l])[..|lines|] == lines;
  }

  /** After the sale loop: the store is consistent again and the receipt totals to the sale. */
  lemma SaleRecordedKeepsValid(db: Store, form: SaleForm, fid: nat, before: map<nat, Transaction>,
                               factures: seq<Facture>, start: nat, lines: seq<Line>)
    requires factures != [] && factures[|factures| - 1] == Facture(fid, form.userId, [])
    requires db.nextFactureId == fid + 1
    requires Consistent(db.users, db.products, db.gifts, db.codes, before, factures,
                        db.nextUserId, start, db.nextFactureId)
    requires lines == SaleLines(db.products, form)
    requires RecordsLines(before, db.transactions, start, lines)
    requires db.nextTransactionId == start + |lines|
    requires db.factures == factures[..|factures| - 1] + [Facture(fid, form.userId, KeyRange(start, |lines|))]
    ensures db.Valid()
    ensures FactureTotal(db.products, db.transactions, db.factures, fid) == Some(LinesTotal(lines))
  {
    var earlier := factures[..|factures| - 1];
    EarlierReceiptsConsistent(db.users, db.products, db.gifts, db.codes, before, factures,
                              db.nextUserId, start, fid);
    SaleLinesExact(db.products, form);
    SaleKeepsConsistent(db.users, db.products, db.gifts, db.codes, before, db.transactions,
                        earlier, db.nextUserId, start, fid, form.userId, lines);
    ReceiptMatchesSale(db.products, db.transactions, start, lines);
    FindNewest(earlier, Facture(fid, form.userId, KeyRange(start, |lines|)));
  }

  /** Without its newest receipt `fid`, the receipt table is consistent with `fid` as the
      next key. */
  lemma EarlierReceiptsConsistent(users: map<nat, User>, products: seq<Product>, gifts: map<nat, Gift>,
                                  codes: map<string, Code>, transactions: map<nat, Transaction>,
                                  factures: seq<Facture>, nextUserId: nat, nextTransactionId: nat, fid: nat)
    requires factures != [] && factures[|factures| - 1].id == fid
    requires Consistent(users, products, gifts, codes, transactions, factures,
                        nextUserId, nextTransactionId, fid + 1)
    ensures Consistent(users, products, gifts, codes, transactions, factures[..|factures| - 1],
                       nextUserId, nextTransactionId, fid)
  {
    var earlier := factures[..|factures| - 1];
    assert forall i :: 0 <= i < |earlier| ==> earlier[i] == factures[i];
    forall i | 0 <= i < |earlier|
      ensures earlier[i].id < fid
    {
      assert factures[i].id != factures[|factures| - 1].id;
    }
  }

  /** `transaction.save()` then `fac.transactionIds.add(transaction)`: the transaction gets
      the next key and is attached to the receipt `fid`, the last row of the receipt table. */
  method SaveLine(db: Store, fid: nat, uid: nat, txIds: seq<nat>, productId: nat, quantity: int)
    returns (txIds': seq<nat>)
    requires db.factures != [] && db.factures[|db.factures| - 1] == Facture(fid, uid, txIds)
    modifies db`transactions, db`nextTransactionId, db`factures
    ensures txIds' == txIds + [old(db.nextTransactionId)]
    ensures db.transactions == old(db.transactions)[old(db.nextTransactionId) := Transaction(productId, quantity)]
    ensures db.nextTransactionId == old(db.nextTransactionId) + 1
    ensures db.factures == old(db.factures)[..|old(db.factures)| - 1] + [Facture(fid, uid, txIds')]
  {
    var tid := db.nextTransactionId;
    db.transactions := db.transactions[tid := Transaction(productId, quantity)];
    db.nextTransactionId := tid + 1;
    txIds' := txIds + [tid];
    db.factures := db.factures[|db.factures| - 1 := Facture(fid, uid, txIds')];
  }

  /** A receipt appended under a key no older receipt has is found by that key. */
  lemma {:induction false} FindNewest(factures: seq<Facture>, f: Facture)
    requires forall i :: 0 <= i < |factures| ==> factures[i].id < f.id
    ensures FindFacture(factures + [f], f.id) == Some(f)
  {
    if factures != [] {
      assert (factures + [f])[1..] == factures[1..] + [f];
      FindNewest(factures[1..], f);
    }
  }

  // --------------------------------------------------------------- scanGiftCode

  /** `scanGiftCode`: the gift bound to the submitted code, or None for a missing or unknown
      code. It reads the code table only. */
  function ScanGiftCode(codes: map<string, Code>, giftCode: Option<string>): (gift: Option<nat>)
    ensures gift.Some? <==> giftCode.Some? && giftCode.value in codes
    ensures gift.Some? ==> gift.value == codes[giftCode.value].giftId
  {
    match giftCode
    case None => None
    case Some(cid) => if cid in codes then Some(codes[cid].giftId) else None
  }
}
