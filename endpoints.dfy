/**
 * The three JSON endpoints `/fetch_customer`, `/register` and `/intent`: the checks they make on
 * the request body, in order, and the domain action they then take. A request is the parsed
 * body with each field present or absent; a response is the JSON payload with its HTTP code.
 * Each endpoint is a function from the table and the request to the response and the table
 * afterwards, and a module-level method that takes the `Store` and carries it out in place.
 */
module Endpoints {

  import opened Wrappers
  import opened Text
  import opened Database
  import opened Intents

  /** Body of `/fetch_customer`. */
  datatype FetchRequest = FetchRequest(id: Option<string>)

  /** Body of `/register`. */
  datatype RegisterRequest = RegisterRequest(id: Option<string>, name: Option<string>)

  /**
   * Body of `/intent`. `upgrade` is `data.get("upgrade", False)`; `amount` is the result of
   * `int(data.get("amount", 199))`, `None` when that conversion fails (an absent field is `Some(199)`).
   */
  datatype IntentRequest = IntentRequest(id: Option<string>, text: Option<string>, upgrade: bool, amount: Option<int>)

  /** The JSON payload returned, with the HTTP status code where it is not 200. */
  datatype Response =
    | Failure(code: nat, message: string)                   // {"status": "error", "message": ...}
    | NotFound                                              // {"status": "not_found"}
    | Found(customer: Customer)                             // {"status": "ok", "customer": ...}
    | Registered(message: string, record: Option<Customer>)   // {"status": "ok", "message": ..., "customer": ...}
    | Answered(message: string)                             // {"status": "ok", "message": ...}

  const MissingCustomerId := "Missing customer ID"
  const InvalidCustomerId := "Invalid customer ID"
  const MissingIdOrName := "Missing ID or name"
  const InvalidIdOrName := "Invalid ID or name"
  const DuplicateId := "Customer ID already exists"
  const MissingIdOrText := "Missing ID or text"
  const InvalidIdOrText := "Invalid ID or text"
  const CustomerNotFound := "Customer not found"

  /** The command the dispatcher sees: `text.strip().lower()`. */
  function Command(text: string): (cmd: string)
    ensures cmd == [] <==> Blank(text)
  {
    Lower(Strip(text))
  }

  // ---------------------------------------------------------------- /fetch_customer

  /**
   * `/fetch_customer`: a missing id and a blank id are client errors; otherwise the row stored
   * under the stripped id, or the soft `not_found` status. It never writes.
   */
  function FetchOutcome(db: Db, req: FetchRequest): (r: Response)
    ensures r == Failure(400, "Missing customer ID") <==> req.id.None?
    ensures r == Failure(400, "Invalid customer ID") <==> req.id.Some? && Blank(req.id.value)
    ensures r.NotFound? <==> req.id.Some? && !Blank(req.id.value) && Strip(req.id.value) !in db
    ensures r.Found? <==> req.id.Some? && !Blank(req.id.value) && Strip(req.id.value) in db
    ensures r.Found? ==> r.customer == db[Strip(req.id.value)]
    ensures WellKeyed(db) && r.Found? ==> r.customer.id == Strip(req.id.value)
  {
    if req.id.None? then Failure(400, MissingCustomerId)
    else
      var cid := Strip(req.id.value);
      if cid == [] then Failure(400, InvalidCustomerId)
      else if cid in db then Found(db[cid])
      else NotFound
  }

  method FetchCustomer(store: Store, req: FetchRequest) returns (resp: Response)
    ensures resp == FetchOutcome(store.customers, req)
  {
    if req.id.None? {
      return Failure(400, MissingCustomerId);
    }
    var cid := Strip(req.id.value);
    if cid == [] {
      return Failure(400, InvalidCustomerId);
    }
    var cust := store.Fetch(cid);
    if cust.None? {
      return NotFound;
    }
    resp := Found(cust.value);
  }

  // ---------------------------------------------------------------- /register

  /** Both fields present, neither blank, and the id not taken. */
  predicate CanRegister(db: Db, req: RegisterRequest)
  {
    && req.id.Some? && req.name.Some?
    && !Blank(req.id.value) && !Blank(req.name.value)
    && Strip(req.id.value) !in db
  }

  /**
   * `/register`: a request that cannot register is refused with a 400 and leaves the table as it
   * was, including the existing row of a taken id; otherwise the stripped id is inserted with the
   * stripped name and default values, and that new record is returned.
   */
  function RegisterOutcome(db: Db, req: RegisterRequest): (r: (Response, Db))
    ensures r.0.Registered? <==> CanRegister(db, req)
    ensures r.0 == Failure(400, "Missing ID or name") <==> req.id.None? || req.name.None?
    ensures r.0 == Failure(400, "Invalid ID or name") <==>
      req.id.Some? && req.name.Some? && (Blank(req.id.value) || Blank(req.name.value))
    ensures !r.0.Registered? ==> r.1 == db && r.0.Failure? && r.0.code == 400
    ensures r.0.Registered? ==>
      var cid, name := Strip(req.id.value), Strip(req.name.value);
      && r.1 == Inserted(db, cid, name)
      && r.0.record == Some(Customer(cid, name, "SmartPlan 299", 150, "9999999999", "1.5 GB"))
      && r.0.message == "Customer " + name + " registered successfully"
    ensures (&& req.id.Some? && req.name.Some? && !Blank(req.id.value) && !Blank(req.name.value)
             && Strip(req.id.value) in db)
            ==> r.0 == Failure(400, "Customer ID already exists")
    ensures WellKeyed(db) ==> WellKeyed(r.1)
  {
    if req.id.None? || req.name.None? then (Failure(400, MissingIdOrName), db)
    else
      var cid, name := Strip(req.id.value), Strip(req.name.value);
      if cid == [] || name == [] then (Failure(400, InvalidIdOrName), db)
      else if cid in db then (Failure(400, DuplicateId), db)
      else
        var db' := Inserted(db, cid, name);
        (Registered("Customer " + name + " registered successfully", Some(db'[cid])), db')
  }

  method Register(store: Store, req: RegisterRequest) returns (resp: Response)
    requires store.Valid()
    modifies store
    ensures store.Valid()
    ensures (resp, store.customers) == RegisterOutcome(old(store.customers), req)
  {
    if req.id.None? || req.name.None? {
      return Failure(400, MissingIdOrName);
    }
    var cid, name := Strip(req.id.value), Strip(req.name.value);
    if cid == [] || name == [] {
      return Failure(400, InvalidIdOrName);
    }
    var existing := store.Fetch(cid);
    if existing.Some? {
      return Failure(400, DuplicateId);
    }
    store.Save(cid, name);
    var cust := store.Fetch(cid);
    resp := Registered("Customer " + name + " registered successfully", cust);
  }

  // ---------------------------------------------------------------- /intent

  /** Both fields present and neither blank. */
  predicate WellFormed(req: IntentRequest)
  {
    req.id.Some? && req.text.Some? && !Blank(req.id.value) && !Blank(req.text.value)
  }

  /**
   * `/intent`: a missing or blank id or text is a 400, an unknown id a 404, and in both cases
   * the table is unchanged; otherwise the dispatched handler answers. No request ever adds or
   * removes a row.
   */
  function IntentOutcome(db: Db, req: IntentRequest): (r: (Response, Db))
    ensures r.1.Keys == db.Keys
    ensures WellKeyed(db) ==> WellKeyed(r.1)
    ensures r.0.Failure? ==> r.1 == db
    ensures r.0.Failure? && r.0.code == 400 <==> !WellFormed(req)
    ensures r.0 == Failure(400, "Missing ID or text") <==> req.id.None? || req.text.None?
    ensures r.0 == Failure(400, "Invalid ID or text") <==>
      req.id.Some? && req.text.Some? && (Blank(req.id.value) || Blank(req.text.value))
    ensures r.0 == Failure(404, "Customer not found") <==> WellFormed(req) && Strip(req.id.value) !in db
    ensures r.0.Answered? <==> WellFormed(req) && Strip(req.id.value) in db
  {
    if req.id.None? || req.text.None? then (Failure(400, MissingIdOrText), db)
    else
      var cid, cmd := Strip(req.id.value), Command(req.text.value);
      if cid == [] || cmd == [] then (Failure(400, InvalidIdOrText), db)
      else if cid !in db then (Failure(404, CustomerNotFound), db)
      else
        var (msg, db') := Respond(db, db[cid], cmd, req.upgrade, req.amount);
        (Answered(msg), db')
  }

  method HandleIntent(store: Store, req: IntentRequest) returns (resp: Response)
    requires store.Valid()
    modifies store
    ensures store.Valid()
    ensures (resp, store.customers) == IntentOutcome(old(store.customers), req)
  {
    if req.id.None? || req.text.None? {
      return Failure(400, MissingIdOrText);
    }
    var cid := Strip(req.id.value);
    var cmd := Command(req.text.value);
    if cid == [] || cmd == [] {
      return Failure(400, InvalidIdOrText);
    }
    var found := store.Fetch(cid);
    if found.None? {
      return Failure(404, CustomerNotFound);
    }
    var msg := Answer(store, found.value, cmd, req.upgrade, req.amount);
    resp := Answered(msg);
  }

  /**
   * A well-formed request for a known id is answered by the dispatcher, on that id's row and the
   * stripped, lower-cased text; the recharge and data-pack lemmas of `Respond` then say what it
   * answers and writes.
   */
  lemma IntentAnswered(db: Db, req: IntentRequest)
    ensures WellFormed(req) && Strip(req.id.value) in db ==>
      var r := Respond(db, db[Strip(req.id.value)], Command(req.text.value), req.upgrade, req.amount);
      IntentOutcome(db, req) == (Answered(r.0), r.1)
  {
  }

  /** Every intent other than an upgrade or a recharge leaves the table exactly as it was. */
  lemma {:induction false} IntentReadOnly(db: Db, req: IntentRequest)
    requires WellFormed(req)
    requires Dispatch(Command(req.text.value)) !in {Data, Recharge} || (!req.upgrade && Dispatch(Command(req.text.value)) == Data)
    ensures IntentOutcome(db, req).1 == db
  {
    IntentAnswered(db, req);
  }

  /** A command already trimmed and in lower case reaches the dispatcher as it is. */
  lemma CommandUnchanged(s: string)
    requires s == [] || (!IsSpace(s[0]) && !IsSpace(s[|s| - 1]))
    requires forall i :: 0 <= i < |s| ==> !IsUpper(s[i])
    ensures Command(s) == s
  {
    StripTrimmed(s);
    assert Strip(s) == s;
    LowerNoUpper(s);
  }

  /**
   * Registering a new id returns the default record under that id and name, and fetching it
   * afterwards, with the id as sent or with the already stripped id the response carries, returns
   * that same record.
   */
  lemma {:induction false} RegisterThenFetch(db: Db, req: RegisterRequest)
    ensures CanRegister(db, req) ==>
      var rec := Customer(Strip(req.id.value), Strip(req.name.value), "SmartPlan 299", 150, "9999999999", "1.5 GB");
      var (resp, db') := RegisterOutcome(db, req);
      resp.Registered? && resp.record == Some(rec) &&
      FetchOutcome(db', FetchRequest(req.id)) == Found(rec) &&
      FetchOutcome(db', FetchRequest(Some(rec.id))) == Found(rec)
  {
    if CanRegister(db, req) {
      var cid, name := Strip(req.id.value), Strip(req.name.value);
      var db' := RegisterOutcome(db, req).1;
      assert db' == Inserted(db, cid, name);
      assert FetchOutcome(db', FetchRequest(req.id)) == Found(db'[cid]);
      StripIdempotent(req.id.value);
      assert FetchOutcome(db', FetchRequest(Some(cid))) == Found(db'[cid]);
    }
  }

  /** A field value with nothing to strip. */
  predicate Trimmed(s: string)
  {
    s != [] && Strip(s) == s
  }

  // The commands the backend's end-to-end test sends need no stripping, are their own command,
  // pick the handler the test expects (the words each command holds and lacks decide it, by the
  // first-match rule of the dispatcher), and get the reply whose word the test looks for.

  lemma CheckBalanceInput(s: string, db: Db, cust: Customer, upgrade: bool, parsed: Option<int>)
    requires s == "check balance"
    ensures Trimmed(s) && Command(s) == s && Dispatch(s) == Balance
    ensures Contains(Respond(db, cust, s, upgrade, parsed).0, "balance")
  {
    CommandUnchanged(s);
    BalanceWord(s);
    BalanceAlwaysWins(s);
    BalanceAnswer(db, cust, s, upgrade, parsed);
  }

  lemma UpgradeInput(s: string, db: Db, cust: Customer, parsed: Option<int>)
    requires s == "upgrade my data"
    ensures Trimmed(s) && Command(s) == s && Dispatch(s) == Data
    ensures Contains(Respond(db, cust, s, true, parsed).0, "Upgraded")
  {
    CommandUnchanged(s);
    UpgradeWords(s);
    DataIsFirst(s);
    UpgradeAnswer(db, cust, s, parsed);
  }

  lemma RechargeInput(s: string, db: Db, cust: Customer, upgrade: bool, parsed: Option<int>)
    requires s == "recharge"
    ensures Trimmed(s) && Command(s) == s && Dispatch(s) == Recharge
    ensures Contains(Respond(db, cust, s, upgrade, parsed).0, "Recharge")
  {
    CommandUnchanged(s);
    RechargeWords(s);
    RechargeIsFirst(s);
    RechargeAnswer(db, cust, s, upgrade, parsed);
  }

  lemma BalanceWord(s: string)
    requires s == "check balance"
    ensures Contains(s, "balance")
  {
    assert s[6..13] == "balance";
    ContainsAt(s, "balance", 6);
  }

  lemma UpgradeWords(s: string)
    requires s == "upgrade my data"
    ensures !Contains(s, "balance") && !Contains(s, "plan") && !Contains(s, "offer") && Contains(s, "data")
  {
    UpgradeLacks(s);
    assert s[11..15] == "data";
    ContainsAt(s, "data", 11);
  }

  lemma UpgradeLacks(s: string)
    requires s == "upgrade my data"
    ensures !Contains(s, "balance") && !Contains(s, "plan") && !Contains(s, "offer")
  {
    Lacks(s, "balance", 0);
    Lacks(s, "plan", 1);
    Lacks(s, "offer", 0);
  }

  lemma RechargeWords(s: string)
    requires s == "recharge"
    ensures !Contains(s, "balance") && !Contains(s, "plan") && !Contains(s, "offer")
    ensures !Contains(s, "data") && !Contains(s, "upgrade") && Contains(s, "recharge")
  {
    Lacks(s, "balance", 0);
    Lacks(s, "plan", 0);
    Lacks(s, "offer", 0);
    Lacks(s, "data", 0);
    Lacks(s, "upgrade", 0);
    assert s <= s;
  }
}
