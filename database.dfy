/**
 * The `customers` table, keyed by customer id, held as a map in place of the SQLite file.
 * The pure functions below give the table's value after each SQL statement the backend
 * runs; the class `Store` is the table itself, updated in place by those statements.
 */
module Database {

  import opened Wrappers

  /** One row of the table. The REAL balance column only ever holds whole numbers, so it is an `int`. */
  datatype Customer = Customer(id: string, name: string, plan: string, balance: int, phone: string, dataLeft: string)

  // Values every new row starts with.
  const DefaultPlan := "SmartPlan 299"
  const DefaultBalance := 150
  const DefaultPhone := "9999999999"
  const DefaultDataLeft := "1.5 GB"

  type Db = map<string, Customer>

  /** Every row is stored under its own id (the id column is the primary key). */
  predicate WellKeyed(db: Db)
  {
    forall k :: k in db ==> db[k].id == k
  }

  /** The row `save_customer_db` writes: the id and name given, and the default values. */
  function NewCustomer(cid: string, name: string): (c: Customer)
    ensures c.id == cid && c.name == name
    ensures c.plan == "SmartPlan 299" && c.balance == 150 && c.phone == "9999999999" && c.dataLeft == "1.5 GB"
  {
    Customer(cid, name, DefaultPlan, DefaultBalance, DefaultPhone, DefaultDataLeft)
  }

  /**
   * `INSERT OR REPLACE` of a fresh row: afterwards `cid` holds a row with that id and name
   * and all the default values, whether or not it held one before; no other row changes.
   */
  function Inserted(db: Db, cid: string, name: string): (r: Db)
    ensures r.Keys == db.Keys + {cid}
    ensures r[cid].id == cid && r[cid].name == name
    ensures r[cid].plan == "SmartPlan 299" && r[cid].balance == 150
    ensures r[cid].phone == "9999999999" && r[cid].dataLeft == "1.5 GB"
    ensures forall k :: k in db && k != cid ==> r[k] == db[k]
    ensures WellKeyed(db) ==> WellKeyed(r)
  {
    db[cid := NewCustomer(cid, name)]
  }

  /**
   * `UPDATE customers SET plan=?, data_left=? WHERE id=?`: the row of `cid`, if there is one,
   * gets the new plan and data allowance and keeps its id, name, balance and phone;
   * no row is added or removed and no other row changes.
   */
  function WithPlan(db: Db, cid: string, plan: string, dataLeft: string): (r: Db)
    ensures r.Keys == db.Keys
    ensures forall k :: k in db ==>
      && r[k].id == db[k].id && r[k].name == db[k].name
      && r[k].balance == db[k].balance && r[k].phone == db[k].phone
    ensures forall k :: k in db && k != cid ==> r[k] == db[k]
    ensures cid in db ==> r[cid].plan == plan && r[cid].dataLeft == dataLeft
    ensures WellKeyed(db) ==> WellKeyed(r)
  {
    if cid in db then db[cid := db[cid].(plan := plan, dataLeft := dataLeft)] else db
  }

  /**
   * `UPDATE customers SET balance=? WHERE id=?`: the row of `cid`, if there is one, gets the
   * new balance and keeps every other column; no row is added or removed and no other row changes.
   */
  function WithBalance(db: Db, cid: string, balance: int): (r: Db)
    ensures r.Keys == db.Keys
    ensures forall k :: k in db ==>
      && r[k].id == db[k].id && r[k].name == db[k].name && r[k].plan == db[k].plan
      && r[k].phone == db[k].phone && r[k].dataLeft == db[k].dataLeft
    ensures forall k :: k in db && k != cid ==> r[k] == db[k]
    ensures cid in db ==> r[cid].balance == balance
    ensures WellKeyed(db) ==> WellKeyed(r)
  {
    if cid in db then db[cid := db[cid].(balance := balance)] else db
  }

  /** The customers table. */
  class Store {

    var customers: Db

    ghost predicate Valid()
      reads this
    {
      WellKeyed(customers)
    }

    /** A freshly created, empty table. */
    constructor ()
      ensures Valid() && customers == map[]
    {
      customers := map[];
    }

    /** `fetch_customer_db`: the row stored under `cid`, or nothing; a row found carries that id. */
    function Fetch(cid: string): (r: Option<Customer>)
      reads this
      ensures r.Some? <==> cid in customers
      ensures r.Some? ==> r.value == customers[cid]
      ensures Valid() && r.Some? ==> r.value.id == cid
    {
      if cid in customers then Some(customers[cid]) else None
    }

    /** `save_customer_db`: insert or replace the row of `cid` with a fresh default record. */
    method Save(cid: string, name: string)
      requires Valid()
      modifies this
      ensures Valid()
      ensures customers == Inserted(old(customers), cid, name)
      ensures Fetch(cid) == Some(NewCustomer(cid, name))
      ensures forall k :: k != cid ==> Fetch(k) == old(Fetch(k))
    {
      customers := customers[cid := NewCustomer(cid, name)];
    }

    /** The plan update issued by the data-pack upgrade. */
    method SetPlan(cid: string, plan: string, dataLeft: string)
      requires Valid()
      modifies this
      ensures Valid()
      ensures customers == WithPlan(old(customers), cid, plan, dataLeft)
    {
      if cid in customers {
        customers := customers[cid := customers[cid].(plan := plan, dataLeft := dataLeft)];
      }
    }

    /** The balance update issued by a recharge. */
    method SetBalance(cid: string, balance: int)
      requires Valid()
      modifies this
      ensures Valid()
      ensures customers == WithBalance(old(customers), cid, balance)
    {
      if cid in customers {
        customers := customers[cid := customers[cid].(balance := balance)];
      }
    }
  }
}
