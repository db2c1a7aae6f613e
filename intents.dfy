/**
 * The intent handlers and the keyword dispatcher. Handlers that only answer are functions
 * building the reply text; the two that write the customers table (data-pack upgrade and
 * recharge) are module-level methods that take the `Store` and update its table, each specified
 * by a function giving the reply and the table afterwards.
 */
module Intents {

  import opened Wrappers
  import opened Text
  import opened Database

  // ---------------------------------------------------------------- replies

  const OffersMessage := "Latest offers: 10% cashback on recharge above 299, double data on Premium, weekend free calls on Super 699."
  const UpgradedMessage := "Upgraded to Premium Plan 499 successfully."
  const MenuMessage := "Opening main menu. You can say balance, plan, offers, data upgrade, recharge, or customer care."
  const NetworkMessage := "Network issue logged. Our technical team will optimize your area soon."
  const SimMessage := "SIM issue logged. Activation will be completed shortly."
  const RechargeIssueMessage := "Recharge issue noted. It will be resolved shortly."
  const CareMessage := "Connecting to customer care. Describe your issue."
  const ExitMessage := "Thank you for using SmartTel IVR. Goodbye!"
  const UnknownMessage := "Sorry, I didn't understand that."

  // The plan a data-pack upgrade moves to.
  const PremiumPlan := "Premium 499"
  const PremiumDataLeft := "2.5 GB"

  // What a recharge adds when no usable amount was given.
  const DefaultRecharge := 199

  /** `intent_check_balance`: the reply names the balance and shows its value. */
  function BalanceReply(cust: Customer): (msg: string)
    ensures Contains(msg, "balance")
    ensures Contains(msg, FloatText(cust.balance))
  {
    var prefix := "Your current balance is rupees ";
    var msg := prefix + FloatText(cust.balance) + ".";
    BalancePrefix(prefix);
    ContainsMiddle(prefix, FloatText(cust.balance), ".");
    ContainsConcat(prefix, FloatText(cust.balance), "balance");
    ContainsConcat(prefix + FloatText(cust.balance), ".", "balance");
    msg
  }

  lemma BalancePrefix(prefix: string)
    requires prefix == "Your current balance is rupees "
    ensures Contains(prefix, "balance")
  {
    assert prefix[13..20] == "balance";
    ContainsAt(prefix, "balance", 13);
  }

  /** `intent_plan_details`: the reply shows the customer's plan and data allowance. */
  function PlanReply(cust: Customer): (msg: string)
    ensures Contains(msg, cust.plan) && Contains(msg, cust.dataLeft)
  {
    var msg := "Your current plan is " + cust.plan + " with " + cust.dataLeft + " data per day.";
    ContainsMiddle("Your current plan is ", cust.plan, " with ");
    ContainsConcat("Your current plan is " + cust.plan + " with ", cust.dataLeft, cust.plan);
    ContainsConcat("Your current plan is " + cust.plan + " with " + cust.dataLeft, " data per day.", cust.plan);
    ContainsMiddle("Your current plan is " + cust.plan + " with ", cust.dataLeft, " data per day.");
    msg
  }

  /** The reply of a recharge: it reports the amount added and the new balance. */
  function RechargeReply(amount: int, balance: int): (msg: string)
    ensures Contains(msg, "Recharge")
    ensures Contains(msg, IntText(amount)) && Contains(msg, FloatText(balance))
  {
    var head := "Recharge of rupees ";
    var middle := " successful. New balance is ";
    var msg := head + IntText(amount) + middle + FloatText(balance) + ".";
    RechargeHead(head);
    ContainsConcat(head, IntText(amount), "Recharge");
    ContainsMiddle(head, IntText(amount), middle);
    ContainsConcat(head + IntText(amount), middle, "Recharge");
    ContainsConcat(head + IntText(amount) + middle, FloatText(balance), "Recharge");
    ContainsConcat(head + IntText(amount) + middle, FloatText(balance), IntText(amount));
    ContainsConcat(head + IntText(amount) + middle + FloatText(balance), ".", "Recharge");
    ContainsConcat(head + IntText(amount) + middle + FloatText(balance), ".", IntText(amount));
    ContainsMiddle(head + IntText(amount) + middle, FloatText(balance), ".");
    msg
  }

  lemma RechargeHead(head: string)
    requires head == "Recharge of rupees "
    ensures Contains(head, "Recharge")
  {
    assert "Recharge" <= head;
  }

  // ---------------------------------------------------------------- dispatch

  /** The handler a command is routed to. */
  datatype Intent = Balance | Plan | Offer | Data | Recharge | Menu | Care | Exit | Unknown

  /**
   * The `if`/`elif` chain of `intent()`: substring tests on the stripped, lower-cased command,
   * tried in a fixed order; the first test that holds picks the handler.
   */
  function Dispatch(cmd: string): (i: Intent)
    ensures i == Unknown || Mentions(cmd, i)
  {
    if Contains(cmd, "balance") then Balance
    else if Contains(cmd, "plan") then Plan
    else if Contains(cmd, "offer") then Offer
    else if Contains(cmd, "data") || Contains(cmd, "upgrade") then Data
    else if Contains(cmd, "recharge") then Recharge
    else if Contains(cmd, "menu") || Contains(cmd, "main menu") then Menu
    else if || Contains(cmd, "network") || Contains(cmd, "sim") || Contains(cmd, "recharge issue")
            || Contains(cmd, "customer") || Contains(cmd, "care") || Contains(cmd, "talk") then Care
    else if Contains(cmd, "exit") || Contains(cmd, "bye") then Exit
    else Unknown
  }

  // The routing table: each intent's trigger words and its place in the order of tests.

  /** Some trigger word of intent `i` occurs in the command; the fallback has none. */
  predicate Mentions(cmd: string, i: Intent)
  {
    match i
    case Balance => Contains(cmd, "balance")
    case Plan => Contains(cmd, "plan")
    case Offer => Contains(cmd, "offer")
    case Data => Contains(cmd, "data") || Contains(cmd, "upgrade")
    case Recharge => Contains(cmd, "recharge")
    case Menu => Contains(cmd, "menu") || Contains(cmd, "main menu")
    case Care =>
      || Contains(cmd, "network") || Contains(cmd, "sim") || Contains(cmd, "recharge issue")
      || Contains(cmd, "customer") || Contains(cmd, "care") || Contains(cmd, "talk")
    case Exit => Contains(cmd, "exit") || Contains(cmd, "bye")
    case Unknown => false
  }

  function Rank(i: Intent): nat
  {
    match i
    case Balance => 0
    case Plan => 1
    case Offer => 2
    case Data => 3
    case Recharge => 4
    case Menu => 5
    case Care => 6
    case Exit => 7
    case Unknown => 8
  }

  /**
   * `i` is the first-match choice for `cmd`: one of its trigger words occurs (or it is the
   * fallback), and no intent tested before it has a trigger word in `cmd`.
   */
  predicate Selected(cmd: string, i: Intent)
  {
    && (i == Unknown || Mentions(cmd, i))
    && forall j :: Rank(j) < Rank(i) ==> !Mentions(cmd, j)
  }

  lemma DispatchSelects(cmd: string)
    ensures Selected(cmd, Dispatch(cmd))
  {
    var d := Dispatch(cmd);
    forall j | Rank(j) < Rank(d)
      ensures !Mentions(cmd, j)
    {
    }
  }

  lemma SelectedUnique(cmd: string, i: Intent, k: Intent)
    requires Selected(cmd, i) && Selected(cmd, k)
    ensures i == k
  {
    assert Rank(i) < Rank(k) ==> !Mentions(cmd, i);
    assert Rank(k) < Rank(i) ==> !Mentions(cmd, k);
  }

  /** The dispatcher picks exactly the first intent, in the fixed order, whose trigger words occur. */
  lemma DispatchIsFirstMatch(cmd: string, i: Intent)
    ensures Dispatch(cmd) == i <==> Selected(cmd, i)
  {
    DispatchSelects(cmd);
    if Selected(cmd, i) {
      SelectedUnique(cmd, i, Dispatch(cmd));
    }
  }

  /** An intent whose trigger word occurs, with none of an earlier intent, is the one dispatched. */
  lemma FirstMentionWins(cmd: string, i: Intent)
    requires Mentions(cmd, i)
    requires forall j :: Rank(j) < Rank(i) ==> !Mentions(cmd, j)
    ensures Dispatch(cmd) == i
  {
    DispatchIsFirstMatch(cmd, i);
  }

  /** With none of "balance", "plan", "offer", a command holding "data" or "upgrade" is a data request. */
  lemma DataIsFirst(cmd: string)
    requires !Contains(cmd, "balance") && !Contains(cmd, "plan") && !Contains(cmd, "offer")
    requires Contains(cmd, "data") || Contains(cmd, "upgrade")
    ensures Dispatch(cmd) == Data
  {
    FirstMentionWins(cmd, Data);
  }

  /** With none of the words tested before it, a command holding "recharge" is a recharge. */
  lemma RechargeIsFirst(cmd: string)
    requires !Contains(cmd, "balance") && !Contains(cmd, "plan") && !Contains(cmd, "offer")
    requires !Contains(cmd, "data") && !Contains(cmd, "upgrade") && Contains(cmd, "recharge")
    ensures Dispatch(cmd) == Recharge
  {
    FirstMentionWins(cmd, Recharge);
  }

  /** A trigger word of an intent rules out every intent tested after it. */
  lemma EarlierIntentWins(cmd: string, i: Intent)
    requires Mentions(cmd, i)
    ensures Rank(Dispatch(cmd)) <= Rank(i)
  {
    DispatchSelects(cmd);
  }

  /** Whatever else it says, a command mentioning "balance" is a balance check. */
  lemma BalanceAlwaysWins(cmd: string)
    requires Contains(cmd, "balance")
    ensures Dispatch(cmd) == Balance
  {
    EarlierIntentWins(cmd, Balance);
  }

  /** The "main menu" tests are subsumed by the "menu" tests beside them. */
  lemma MainMenuMentionsMenu(s: string)
    ensures Contains(s, "main menu") ==> Contains(s, "menu")
  {
    if Contains(s, "main menu") {
      assert "main menu"[5..9] == "menu";
      ContainsAt("main menu", "menu", 5);
      ContainsTransitive(s, "main menu", "menu");
    }
  }

  /**
   * The "recharge issue" test of the customer-care branch never decides anything: a command
   * routed to customer care always holds one of the other five care words.
   */
  lemma CareNeedsOtherWord(cmd: string)
    requires Dispatch(cmd) == Care
    ensures || Contains(cmd, "network") || Contains(cmd, "sim") || Contains(cmd, "customer")
            || Contains(cmd, "care") || Contains(cmd, "talk")
  {
    if Contains(cmd, "recharge issue") {
      assert "recharge issue"[0..8] == "recharge";
      ContainsAt("recharge issue", "recharge", 0);
      ContainsTransitive(cmd, "recharge issue", "recharge");
    }
  }

  // ---------------------------------------------------------------- customer care

  /** The sub-cases `intent_customer_care` tells apart. */
  datatype CareTopic = MenuRequest | NetworkIssue | SimIssue | RechargeIssue | OtherIssue

  /**
   * The keyword tests of `intent_customer_care`, in order, on the lower-cased issue text: the
   * first topic one of whose words occurs is chosen (for the menu, "menu" itself, which "main
   * menu" contains), and the general topic when none does.
   */
  function Topic(issue: string): (t: CareTopic)
    ensures t == MenuRequest <==> Contains(issue, "menu")
    ensures t == NetworkIssue <==> !Contains(issue, "menu") && Contains(issue, "network")
    ensures t == SimIssue <==>
      && !Contains(issue, "menu") && !Contains(issue, "network")
      && (Contains(issue, "sim") || Contains(issue, "activation"))
    ensures t == RechargeIssue <==>
      && !Contains(issue, "menu") && !Contains(issue, "network") && !Contains(issue, "sim")
      && !Contains(issue, "activation") && Contains(issue, "recharge")
    ensures t == OtherIssue <==>
      && !Contains(issue, "menu") && !Contains(issue, "network") && !Contains(issue, "sim")
      && !Contains(issue, "activation") && !Contains(issue, "recharge")
  {
    MainMenuMentionsMenu(issue);
    if Contains(issue, "menu") || Contains(issue, "main menu") then MenuRequest
    else if Contains(issue, "network") then NetworkIssue
    else if Contains(issue, "sim") || Contains(issue, "activation") then SimIssue
    else if Contains(issue, "recharge") then RechargeIssue
    else OtherIssue
  }

  function TopicMessage(t: CareTopic): string
  {
    match t
    case MenuRequest => MenuMessage
    case NetworkIssue => NetworkMessage
    case SimIssue => SimMessage
    case RechargeIssue => RechargeIssueMessage
    case OtherIssue => CareMessage
  }

  /**
   * `intent_customer_care`: lower-case the issue, then answer by the first of its keyword tests
   * that holds, in the order menu, network, SIM or activation, recharge, and otherwise connect
   * to customer care.
   */
  function CareReply(issue: string): (msg: string)
    ensures var l := Lower(issue);
      && (Contains(l, "menu") ==> msg == MenuMessage)
      && (!Contains(l, "menu") && Contains(l, "network") ==> msg == NetworkMessage)
      && ((!Contains(l, "menu") && !Contains(l, "network") && (Contains(l, "sim") || Contains(l, "activation")))
          ==> msg == SimMessage)
      && ((!Contains(l, "menu") && !Contains(l, "network") && !Contains(l, "sim") && !Contains(l, "activation")
           && Contains(l, "recharge"))
          ==> msg == RechargeIssueMessage)
      && ((!Contains(l, "menu") && !Contains(l, "network") && !Contains(l, "sim") && !Contains(l, "activation")
           && !Contains(l, "recharge"))
          ==> msg == CareMessage)
  {
    TopicMessage(Topic(Lower(issue)))
  }

  /**
   * Of the five answers of `intent_customer_care`, the menu answer and the recharge-issue
   * answer can never be given through `intent()`: the dispatcher has already sent every
   * command mentioning "menu" or "recharge" elsewhere.
   */
  lemma CareTopicsReachable(text: string)
    requires Dispatch(Lower(Strip(text))) == Care
    ensures var cmd := Lower(Strip(text));
      && Topic(Lower(cmd)) in {NetworkIssue, SimIssue, OtherIssue}
      && CareReply(cmd) in {NetworkMessage, SimMessage, CareMessage}
  {
    var cmd := Lower(Strip(text));
    LowerIdempotent(Strip(text));
    CareSkipsMenuAndRecharge(cmd);
  }

  /** A command routed to customer care has neither the menu topic nor the recharge topic. */
  lemma CareSkipsMenuAndRecharge(cmd: string)
    requires Dispatch(cmd) == Care
    ensures Topic(cmd) in {NetworkIssue, SimIssue, OtherIssue}
  {
  }

  // ---------------------------------------------------------------- handlers that write

  /** `int(amount)` with the fallback of `intent_recharge`: an amount that does not parse counts as 199. */
  function RechargeAmount(parsed: Option<int>): (amount: int)
    ensures parsed.Some? ==> amount == parsed.value
    ensures parsed.None? ==> amount == 199
  {
    match parsed
    case Some(n) => n
    case None => DefaultRecharge
  }

  /** Reply and table after `intent_data_packs(cust, upgrade)`. */
  function DataPacksOutcome(db: Db, cust: Customer, upgrade: bool): (r: (string, Db))
    ensures r.1.Keys == db.Keys
    ensures forall k :: k in db && k != cust.id ==> r.1[k] == db[k]
    ensures upgrade ==>
      && r.0 == "Upgraded to Premium Plan 499 successfully."
      && (cust.id in db ==> r.1[cust.id] == db[cust.id].(plan := "Premium 499", dataLeft := "2.5 GB"))
    ensures !upgrade ==> r.1 == db && r.0 == PlanReply(cust)
  {
    if upgrade then (UpgradedMessage, WithPlan(db, cust.id, PremiumPlan, PremiumDataLeft))
    else (PlanReply(cust), db)
  }

  /**
   * Reply and table after `intent_recharge(cust, amount)`: the new balance is the balance of the
   * record in hand plus the amount, written over whatever the table holds for that id.
   */
  function RechargeOutcome(db: Db, cust: Customer, parsed: Option<int>): (r: (string, Db))
    ensures var amount := RechargeAmount(parsed);
      && r.1.Keys == db.Keys
      && (forall k :: k in db && k != cust.id ==> r.1[k] == db[k])
      && (cust.id in db ==> r.1[cust.id] == db[cust.id].(balance := cust.balance + amount))
      && Contains(r.0, IntText(amount)) && Contains(r.0, FloatText(cust.balance + amount))
  {
    var amount := RechargeAmount(parsed);
    var balance := cust.balance + amount;
    (RechargeReply(amount, balance), WithBalance(db, cust.id, balance))
  }

  /**
   * Answering a fresh record of the table: a recharge raises that customer's balance by exactly the
   * amount added, the one the reply reports, and changes nothing else.
   */
  lemma {:induction false} RechargeAddsAmount(db: Db, cust: Customer, parsed: Option<int>)
    requires cust.id in db && db[cust.id] == cust
    ensures var (msg, db') := RechargeOutcome(db, cust, parsed);
      && db' == db[cust.id := cust.(balance := cust.balance + RechargeAmount(parsed))]
      && Contains(msg, IntText(RechargeAmount(parsed)))
      && Contains(msg, FloatText(db'[cust.id].balance))
  {
    var (msg, db') := RechargeOutcome(db, cust, parsed);
    assert db'[cust.id] == cust.(balance := cust.balance + RechargeAmount(parsed));
  }

  /**
   * The answer to the command routed by `Dispatch` and the table afterwards. Only an upgrade or a
   * recharge writes, and never adds or removes a row.
   */
  function Respond(db: Db, cust: Customer, cmd: string, upgrade: bool, parsed: Option<int>): (r: (string, Db))
    ensures r.1.Keys == db.Keys
    ensures WellKeyed(db) ==> WellKeyed(r.1)
    ensures r.1 != db ==> (Dispatch(cmd) == Data && upgrade) || Dispatch(cmd) == Recharge
  {
    match Dispatch(cmd)
    case Balance => (BalanceReply(cust), db)
    case Plan => (PlanReply(cust), db)
    case Offer => (OffersMessage, db)
    case Data => DataPacksOutcome(db, cust, upgrade)
    case Recharge => RechargeOutcome(db, cust, parsed)
    case Menu => (MenuMessage, db)
    case Care => (CareReply(cmd), db)
    case Exit => (ExitMessage, db)
    case Unknown => (UnknownMessage, db)
  }

  /**
   * A recharge command, answered from the customer's current row, raises that row's balance by
   * exactly the amount (199 when it does not parse), reports the amount and the new balance,
   * and changes no other row and no other column.
   */
  lemma RespondRecharge(db: Db, cust: Customer, cmd: string, upgrade: bool, parsed: Option<int>)
    requires cust.id in db && db[cust.id] == cust
    requires Dispatch(cmd) == Recharge
    ensures var amount := RechargeAmount(parsed);
      Respond(db, cust, cmd, upgrade, parsed)
      == (RechargeReply(amount, cust.balance + amount), db[cust.id := cust.(balance := cust.balance + amount)])
  {
    assert Respond(db, cust, cmd, upgrade, parsed) == RechargeOutcome(db, cust, parsed);
    RechargeAddsAmount(db, cust, parsed);
  }

  /**
   * A data command with `upgrade` moves the customer to "Premium 499" with "2.5 GB" and keeps id,
   * name, balance and phone; without `upgrade` it writes nothing and gives the plan details.
   */
  lemma RespondDataPacks(db: Db, cust: Customer, cmd: string, upgrade: bool, parsed: Option<int>)
    requires cust.id in db && db[cust.id] == cust
    requires Dispatch(cmd) == Data
    ensures var (msg, db') := Respond(db, cust, cmd, upgrade, parsed);
      if upgrade then
        && db' == db[cust.id := cust.(plan := "Premium 499", dataLeft := "2.5 GB")]
        && msg == "Upgraded to Premium Plan 499 successfully."
      else
        db' == db && msg == PlanReply(cust)
  {
    assert Respond(db, cust, cmd, upgrade, parsed) == DataPacksOutcome(db, cust, upgrade);
  }

  /** A balance check answers with the balance reply, which names the balance. */
  lemma BalanceAnswer(db: Db, cust: Customer, cmd: string, upgrade: bool, parsed: Option<int>)
    requires Dispatch(cmd) == Balance
    ensures var msg := Respond(db, cust, cmd, upgrade, parsed).0;
      msg == BalanceReply(cust) && Contains(msg, "balance")
  {
  }

  /** A data-pack request with `upgrade` set answers that the upgrade succeeded. */
  lemma UpgradeAnswer(db: Db, cust: Customer, cmd: string, parsed: Option<int>)
    requires Dispatch(cmd) == Data
    ensures var msg := Respond(db, cust, cmd, true, parsed).0;
      msg == UpgradedMessage && Contains(msg, "Upgraded")
  {
    assert "Upgraded" <= UpgradedMessage;
  }

  /** A recharge answers with the recharge reply, which starts with "Recharge". */
  lemma RechargeAnswer(db: Db, cust: Customer, cmd: string, upgrade: bool, parsed: Option<int>)
    requires Dispatch(cmd) == Recharge
    ensures var msg := Respond(db, cust, cmd, upgrade, parsed).0;
      var amount := RechargeAmount(parsed);
      msg == RechargeReply(amount, cust.balance + amount) && Contains(msg, "Recharge")
  {
    assert Respond(db, cust, cmd, upgrade, parsed) == RechargeOutcome(db, cust, parsed);
  }

  /** The `if`/`elif` chain of `intent()`, run against the table: each command goes to its handler. */
  method Answer(store: Store, cust: Customer, cmd: string, upgrade: bool, parsed: Option<int>) returns (msg: string)
    requires store.Valid()
    modifies store
    ensures store.Valid()
    ensures (msg, store.customers) == Respond(old(store.customers), cust, cmd, upgrade, parsed)
  {
    match Dispatch(cmd) {
      case Balance => msg := BalanceReply(cust);
      case Plan => msg := PlanReply(cust);
      case Offer => msg := OffersMessage;
      case Data => msg := HandleDataPacks(store, cust, upgrade);
      case Recharge => msg := HandleRecharge(store, cust, parsed);
      case Menu => msg := MenuMessage;
      case Care => msg := CareReply(cmd);
      case Exit => msg := ExitMessage;
      case Unknown => msg := UnknownMessage;
    }
  }

  /** `intent_data_packs`: with `upgrade`, move the customer to the premium plan and store it. */
  method HandleDataPacks(store: Store, cust: Customer, upgrade: bool) returns (msg: string)
    requires store.Valid()
    modifies store
    ensures store.Valid()
    ensures (msg, store.customers) == DataPacksOutcome(old(store.customers), cust, upgrade)
  {
    var c := cust;
    if upgrade {
      c := c.(plan := PremiumPlan, dataLeft := PremiumDataLeft);
      store.SetPlan(c.id, c.plan, c.dataLeft);
      msg := UpgradedMessage;
    } else {
      msg := PlanReply(c);
    }
  }

  /** `intent_recharge`: add the amount (199 when it does not parse) to the balance and store it. */
  method HandleRecharge(store: Store, cust: Customer, parsed: Option<int>) returns (msg: string)
    requires store.Valid()
    modifies store
    ensures store.Valid()
    ensures (msg, store.customers) == RechargeOutcome(old(store.customers), cust, parsed)
  {
    var amount := RechargeAmount(parsed);
    var c := cust.(balance := cust.balance + amount);
    store.SetBalance(c.id, c.balance);
    msg := RechargeReply(amount, c.balance);
  }
}
