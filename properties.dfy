/**
 * Properties of the handlers that relate several calls, or a call to the table's
 * invariant, and a walk through the service's documented behaviour on the seed table.
 */
module AppProperties {
  import opened Wrappers
  import opened Ascii
  import opened App

  /** Adding keeps every key upper-case: the only key it inserts is an upper-cased symbol. */
  lemma AddKeepsKeysUpper(t: Table, body: AddBody)
    requires AllUpper(t)
    ensures AllUpper(AddCrypto(t, body).cryptos)
  {
  }

  /** Updating keeps every key upper-case: it never creates a key. */
  lemma UpdateKeepsKeysUpper(t: Table, symbol: string, body: UpdateBody)
    requires AllUpper(t)
    ensures AllUpper(UpdateCrypto(t, symbol, body).cryptos)
  {
  }

  /** Lookups are case-insensitive: a symbol finds what its upper-case form finds. */
  lemma GetIgnoresCase(t: Table, symbol: string)
    ensures GetCrypto(t, symbol) == GetCrypto(t, Upper(symbol))
  {
  }

  /** Listing and looking up agree: every listed key finds its own record. */
  lemma ListingAgreesWithGet(t: Table)
    requires AllUpper(t)
    ensures forall k :: k in GetCryptos(t).payload.cryptos ==>
      GetCrypto(t, k) == Response(StatusOk, Found(k, GetCryptos(t).payload.cryptos[k]))
  {
    forall k | k in t
      ensures Upper(k) == k
    {
      UpperFixesExactlyUpper(k);
    }
  }

  /** After a successful add, looking the symbol up (in any case) finds the new record. */
  lemma AddThenGet(t: Table, body: AddBody, symbol: string)
    requires AddCrypto(t, body).response.status == StatusCreated
    requires Upper(symbol) == Upper(body.symbol.GetOr(""))
    ensures GetCrypto(AddCrypto(t, body).cryptos, symbol) ==
      Response(StatusOk, Found(Upper(symbol), Record(body.name.value, body.price.value, body.marketCap.value)))
  {
  }

  /** Adding the same body twice: the second add is refused as a duplicate and changes nothing. */
  lemma AddTwiceRefused(t: Table, body: AddBody)
    requires AddCrypto(t, body).response.status == StatusCreated
    ensures var t' := AddCrypto(t, body).cryptos;
      AddCrypto(t', body) == Outcome(Response(StatusBadRequest, Failure(AlreadyExists(Upper(body.symbol.value)))), t')
  {
  }

  /** A price of zero counts as present. */
  lemma ZeroPriceAccepted(t: Table, symbol: string, name: string, marketCap: string)
    requires symbol != "" && name != "" && marketCap != ""
    requires Upper(symbol) !in t
    ensures AddCrypto(t, AddBody(Some(symbol), Some(name), Some(Int(0)), Some(marketCap))).response.status == StatusCreated
  {
  }

  /** An unknown symbol is refused before the body is looked at: any body gives the same answer. */
  lemma UpdateUnknownIgnoresBody(t: Table, symbol: string, body1: UpdateBody, body2: UpdateBody)
    requires Upper(symbol) !in t
    ensures UpdateCrypto(t, symbol, body1) == UpdateCrypto(t, symbol, body2)
    ensures UpdateCrypto(t, symbol, body1).cryptos == t
  {
  }

  /** Updating twice with the same body leaves the table the first update left. */
  lemma UpdateIdempotent(t: Table, symbol: string, body: UpdateBody)
    ensures var o := UpdateCrypto(t, symbol, body);
      UpdateCrypto(o.cryptos, symbol, body) == o
  {
  }

  /** After an update, looking the symbol up finds the record the update answered with. */
  lemma UpdateThenGet(t: Table, symbol: string, body: UpdateBody)
    requires Upper(symbol) in t
    ensures var o := UpdateCrypto(t, symbol, body);
      GetCrypto(o.cryptos, symbol) == Response(StatusOk, Found(Upper(symbol), o.response.payload.crypto))
  {
  }

  /** A failed look-up or update names the upper-cased symbol in its error text, and a
      successful update names it in its message. */
  lemma LookupTextsNameSymbol(t: Table, symbol: string, body: UpdateBody)
    ensures var r := GetCrypto(t, symbol);
      r.status == StatusNotFound ==> Mentions(ErrorText(r.payload.error), Upper(symbol))
    ensures var r := UpdateCrypto(t, symbol, body).response;
      && (r.status == StatusNotFound ==> Mentions(ErrorText(r.payload.error), Upper(symbol)))
      && (r.status == StatusOk ==> Mentions(MessageText(r.payload), Upper(symbol)))
  {
  }

  /** An add refused as a duplicate names the upper-cased symbol in its error text, and a
      successful add names it in its message. */
  lemma AddTextsNameSymbol(t: Table, body: AddBody)
    ensures var r := AddCrypto(t, body).response;
      && (r.payload.Failure? && r.payload.error.AlreadyExists? ==> Mentions(ErrorText(r.payload.error), Upper(body.symbol.GetOr(""))))
      && (r.status == StatusCreated ==> Mentions(MessageText(r.payload), Upper(body.symbol.GetOr(""))))
  {
  }

  /** One request to any of the four handlers. */
  datatype Request =
    | ListAll
    | Lookup(symbol: string)
    | Create(body: AddBody)
    | Change(symbol: string, update: UpdateBody)

  /** Serve one request: the step of a run. The two reading handlers return no table,
      so the table is left as it was by construction. */
  function Handle(t: Table, req: Request): (o: Outcome)
    ensures req.ListAll? || req.Lookup? ==> o.cryptos == t
  {
    match req
    case ListAll => Outcome(GetCryptos(t), t)
    case Lookup(s) => Outcome(GetCrypto(t, s), t)
    case Create(body) => AddCrypto(t, body)
    case Change(s, body) => UpdateCrypto(t, s, body)
  }

  /** The table after serving `reqs` one at a time, in order. */
  function Run(t: Table, reqs: seq<Request>): Table
    decreases |reqs|
  {
    if reqs == [] then t else Run(Handle(t, reqs[0]).cryptos, reqs[1..])
  }

  /** Every key stays upper-case, whatever requests are served. */
  lemma {:induction false} RunKeepsKeysUpper(t: Table, reqs: seq<Request>)
    requires AllUpper(t)
    ensures AllUpper(Run(t, reqs))
    decreases |reqs|
  {
    if reqs != [] {
      var t' := Handle(t, reqs[0]).cryptos;
      assert AllUpper(t') by {
        match reqs[0]
        case ListAll =>
        case Lookup(_) =>
        case Create(body) => AddKeepsKeysUpper(t, body);
        case Change(s, body) => UpdateKeepsKeysUpper(t, s, body);
      }
      RunKeepsKeysUpper(t', reqs[1..]);
    }
  }

  /** No request removes a record: the keys of the table only grow. */
  lemma {:induction false} RunNeverRemovesKeys(t: Table, reqs: seq<Request>)
    ensures t.Keys <= Run(t, reqs).Keys
    decreases |reqs|
  {
    if reqs != [] {
      RunNeverRemovesKeys(Handle(t, reqs[0]).cryptos, reqs[1..]);
    }
  }

  /** Looking symbols up in the seed table. */
  method WalkthroughLookups()
  {
    var store := new CryptoStore();
    assert Upper("BTC") == "BTC";
    assert GetCrypto(store.cryptos, "BTC") == Response(StatusOk, Found("BTC", Record("Bitcoin", Int(50000), "1T")));
    assert Upper("btc") == "BTC";
    assert GetCrypto(store.cryptos, "btc") == GetCrypto(store.cryptos, "BTC");
    assert Upper("XYZ") == "XYZ";
    assert GetCrypto(store.cryptos, "XYZ") == Response(StatusNotFound, Failure(UnknownSymbol("XYZ")));
  }

  /** Adding a record, adding it again, and adding one without a market cap. */
  method WalkthroughAdd()
  {
    var store := new CryptoStore();
    var abc := AddBody(Some("ABC"), Some("AbcCoin"), Some(Int(1)), Some("1M"));
    assert Upper("ABC") == "ABC";
    var r := store.Add(abc);
    assert r.status == StatusCreated;
    assert GetCrypto(store.cryptos, "ABC") == Response(StatusOk, Found("ABC", Record("AbcCoin", Int(1), "1M")));
    r := store.Add(abc);
    assert r.status == StatusBadRequest;
    r := store.Add(AddBody(Some("NEW"), Some("NewCoin"), Some(Int(1)), None));
    assert r == Response(StatusBadRequest, Failure(MissingField));
  }

  /** Updating the price of a seeded record, and updating an unknown symbol. */
  method WalkthroughUpdate()
  {
    var store := new CryptoStore();
    assert Upper("BTC") == "BTC";
    var r := store.Update("BTC", UpdateBody(Some(Int(60000)), None));
    assert r == Response(StatusOk, Updated("BTC", Record("Bitcoin", Int(60000), "1T")));
    assert Upper("NOPE") == "NOPE";
    r := store.Update("NOPE", UpdateBody(Some(Int(1)), Some("1B")));
    assert r.status == StatusNotFound;
  }
}
