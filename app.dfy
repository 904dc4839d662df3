/**
 * The cryptocurrency service: an in-memory table from upper-case symbols to records,
 * seeded with three entries, and the four handlers that list it, look a symbol up,
 * add a record and update a record. The HTTP and JSON layer is abstracted: a request
 * body is a datatype of optional fields and a response is a status with a payload.
 */
module App {
  import opened Wrappers
  import opened Ascii

  /** A JSON number as the service stores it; the seed holds both kinds. */
  datatype Number = Int(i: int) | Float(f: real)

  /** The stored attributes of one cryptocurrency. */
  datatype Record = Record(name: string, price: Number, marketCap: string)

  /** The store: symbol to record. */
  type Table = map<string, Record>

  const StatusOk: nat := 200
  const StatusCreated: nat := 201
  const StatusBadRequest: nat := 400
  const StatusNotFound: nat := 404

  datatype ErrorKind =
    | MissingField                   // a required field of a new record is missing
    | AlreadyExists(symbol: string)  // the new record's symbol is taken
    | UnknownSymbol(symbol: string)  // no record under that symbol

  /** What a handler answers with; each alternative is one JSON shape. */
  datatype Payload =
    | Listing(cryptos: Table)                 // the whole table
    | Found(symbol: string, crypto: Record)   // the record merged with its "symbol" field
    | Added(symbol: string, crypto: Record)   // a "message" and the new "crypto"
    | Updated(symbol: string, crypto: Record) // a "message" and the changed "crypto"
    | Failure(error: ErrorKind)               // an "error" text

  datatype Response = Response(status: nat, payload: Payload)

  /** The body of an add request; an absent or null field is `None`. */
  datatype AddBody = AddBody(symbol: Option<string>, name: Option<string>, price: Option<Number>, marketCap: Option<string>)

  /** The body of an update request; an absent or null field is `None`. */
  datatype UpdateBody = UpdateBody(price: Option<Number>, marketCap: Option<string>)

  /** A handler's answer together with the table it leaves behind. */
  datatype Outcome = Outcome(response: Response, cryptos: Table)

  /** The table the service starts with. */
  function Seed(): (t: Table)
    ensures t.Keys == {"BTC", "ETH", "DOGE"}
    ensures AllUpper(t)
  {
    map[
      "BTC" := Record("Bitcoin", Int(50000), "1T"),
      "ETH" := Record("Ethereum", Int(3500), "500B"),
      "DOGE" := Record("Dogecoin", Float(0.25), "30B")
    ]
  }

  /** The table's invariant: every key is upper-case. */
  ghost predicate AllUpper(t: Table)
  {
    forall k :: k in t ==> IsUpper(k)
  }

  /** Python truthiness of an optional string field: present and non-empty. */
  predicate Truthy(s: Option<string>)
  {
    s.Some? && s.value != ""
  }

  /** `s` occurs in `text` starting at index `i`. */
  predicate OccursAt(text: string, s: string, i: nat)
  {
    i + |s| <= |text| && text[i..i + |s|] == s
  }

  /** `text` contains `s` somewhere. */
  ghost predicate Mentions(text: string, s: string)
  {
    exists i: nat :: OccursAt(text, s, i)
  }

  /** The `error` text of each failure; the texts for a taken or an unknown symbol name it. */
  function ErrorText(e: ErrorKind): (r: string)
    ensures r != ""
    ensures !e.MissingField? ==> Mentions(r, e.symbol)
  {
    match e
    case MissingField => "Missing 'symbol', 'name', 'price', or 'market_cap' in the request body."
    case AlreadyExists(s) =>
      var prefix := "Cryptocurrency with symbol '";
      var r := prefix + s + "' already exists.";
      assert OccursAt(r, s, |prefix|);
      r
    case UnknownSymbol(s) =>
      var prefix := "Cryptocurrency with symbol '";
      var r := prefix + s + "' not found.";
      assert OccursAt(r, s, |prefix|);
      r
  }

  /** The `message` text of the two success payloads that carry one, naming the symbol;
      the other payloads carry no message. */
  function MessageText(p: Payload): (r: string)
    ensures p.Added? || p.Updated? ==> Mentions(r, p.symbol)
    ensures !(p.Added? || p.Updated?) ==> r == ""
  {
    match p
    case Added(s, _) =>
      var prefix := "Cryptocurrency '";
      var r := prefix + s + "' added successfully.";
      assert OccursAt(r, s, |prefix|);
      r
    case Updated(s, _) =>
      var prefix := "Cryptocurrency '";
      var r := prefix + s + "' updated successfully.";
      assert OccursAt(r, s, |prefix|);
      r
    case _ => ""
  }

  /** A new record is missing a field: symbol absent or empty, name absent or empty,
      price absent (a zero price is present), market cap absent or empty. */
  ghost predicate Incomplete(body: AddBody)
  {
    || body.symbol.None? || body.symbol == Some("")
    || body.name.None? || body.name == Some("")
    || body.price.None?
    || body.marketCap.None? || body.marketCap == Some("")
  }

  /** `get_cryptos`: the whole table. */
  function GetCryptos(t: Table): (r: Response)
    ensures r.status == StatusOk && r.payload.Listing?
    ensures r.payload.cryptos.Keys == t.Keys
    ensures forall k :: k in t ==> r.payload.cryptos[k] == t[k]
  {
    Response(StatusOk, Listing(t))
  }

  /** `get_crypto`: look a symbol up, case-insensitively. */
  function GetCrypto(t: Table, symbol: string): (r: Response)
    ensures r.status == StatusOk <==> Upper(symbol) in t
    ensures r.status == StatusOk ==> r.payload == Found(Upper(symbol), t[Upper(symbol)])
    ensures r.status != StatusOk ==> r == Response(StatusNotFound, Failure(UnknownSymbol(Upper(symbol))))
  {
    var key := Upper(symbol);
    if key in t then Response(StatusOk, Found(key, t[key]))
    else Response(StatusNotFound, Failure(UnknownSymbol(key)))
  }

  /** `add_crypto`: validate the body, refuse a taken symbol, otherwise insert. */
  function AddCrypto(t: Table, body: AddBody): (o: Outcome)
    // the missing-field check comes first, whether or not the symbol is taken
    ensures Incomplete(body) ==> o == Outcome(Response(StatusBadRequest, Failure(MissingField)), t)
    ensures !Incomplete(body) && Upper(body.symbol.value) in t ==>
      o == Outcome(Response(StatusBadRequest, Failure(AlreadyExists(Upper(body.symbol.value)))), t)
    ensures o.response.status == StatusCreated <==> !Incomplete(body) && Upper(body.symbol.value) !in t
    ensures o.response.status != StatusCreated ==> o.cryptos == t && o.response.status == StatusBadRequest
    ensures o.response.status == StatusCreated ==>
      var key := Upper(body.symbol.value);
      && o.cryptos.Keys == t.Keys + {key}
      && o.cryptos[key] == Record(body.name.value, body.price.value, body.marketCap.value)
      && (forall k :: k in t ==> o.cryptos[k] == t[k])
      && o.response.payload == Added(key, o.cryptos[key])
  {
    var symbol := Upper(body.symbol.GetOr(""));
    if symbol == "" || !Truthy(body.name) || body.price.None? || !Truthy(body.marketCap) then
      Outcome(Response(StatusBadRequest, Failure(MissingField)), t)
    else if symbol in t then
      Outcome(Response(StatusBadRequest, Failure(AlreadyExists(symbol))), t)
    else
      var t' := t[symbol := Record(body.name.value, body.price.value, body.marketCap.value)];
      Outcome(Response(StatusCreated, Added(symbol, t'[symbol])), t')
  }

  /** `update_crypto`: refuse an unknown symbol, otherwise overwrite the fields given. */
  function UpdateCrypto(t: Table, symbol: string, body: UpdateBody): (o: Outcome)
    ensures Upper(symbol) !in t ==> o == Outcome(Response(StatusNotFound, Failure(UnknownSymbol(Upper(symbol)))), t)
    ensures Upper(symbol) in t ==>
      var key := Upper(symbol);
      && o.cryptos.Keys == t.Keys
      && o.cryptos[key].name == t[key].name
      && o.cryptos[key].price == body.price.GetOr(t[key].price)
      && o.cryptos[key].marketCap == body.marketCap.GetOr(t[key].marketCap)
      && (forall k :: k in t && k != key ==> o.cryptos[k] == t[k])
      && o.response == Response(StatusOk, Updated(key, o.cryptos[key]))
  {
    var key := Upper(symbol);
    if key !in t then
      Outcome(Response(StatusNotFound, Failure(UnknownSymbol(key))), t)
    else
      var before := t[key];
      var priced := if body.price.Some? then before.(price := body.price.value) else before;
      var after := if body.marketCap.Some? then priced.(marketCap := body.marketCap.value) else priced;
      Outcome(Response(StatusOk, Updated(key, after)), t[key := after])
  }

  /** The process-wide store, changed in place by the add and update handlers. */
  class CryptoStore {
    var cryptos: Table

    ghost predicate Valid()
      reads this
    {
      AllUpper(cryptos)
    }

    /** The store as the process starts. */
    constructor ()
      ensures Valid() && cryptos == Seed()
    {
      cryptos := Seed();
    }

    /** `add_crypto`, applied to this store. */
    method Add(body: AddBody) returns (r: Response)
      requires Valid()
      modifies this
      ensures Valid()
      ensures Outcome(r, cryptos) == AddCrypto(old(cryptos), body)
    {
      var symbol := Upper(body.symbol.GetOr(""));
      if symbol == "" || !Truthy(body.name) || body.price.None? || !Truthy(body.marketCap) {
        return Response(StatusBadRequest, Failure(MissingField));
      }
      if symbol in cryptos {
        return Response(StatusBadRequest, Failure(AlreadyExists(symbol)));
      }
      cryptos := cryptos[symbol := Record(body.name.value, body.price.value, body.marketCap.value)];
      r := Response(StatusCreated, Added(symbol, cryptos[symbol]));
    }

    /** `update_crypto`, applied to this store. */
    method Update(symbol: string, body: UpdateBody) returns (r: Response)
      requires Valid()
      modifies this
      ensures Valid()
      ensures Outcome(r, cryptos) == UpdateCrypto(old(cryptos), symbol, body)
    {
      var key := Upper(symbol);
      if key !in cryptos {
        return Response(StatusNotFound, Failure(UnknownSymbol(key)));
      }
      if body.price.Some? {
        cryptos := cryptos[key := cryptos[key].(price := body.price.value)];
      }
      if body.marketCap.Some? {
        cryptos := cryptos[key := cryptos[key].(marketCap := body.marketCap.value)];
      }
      r := Response(StatusOk, Updated(key, cryptos[key]));
    }
  }
}
