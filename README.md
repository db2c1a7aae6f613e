# SmartTel IVR backend — a Dafny model

This project models the core of a small voice-response (IVR) backend for a telephone operator,
`milestone4_backend.py`. Customers are stored in a `customers` table keyed by id. Three JSON
endpoints read and write that table:

- `/register` creates a customer with default plan, balance, phone and data allowance;
- `/fetch_customer` returns a stored customer;
- `/intent` takes a spoken or typed command, strips and lower-cases it, and routes it through an
  ordered chain of substring tests to one handler: balance, plan details, offers, data-pack
  upgrade, recharge, main menu, customer care, exit, or "not understood".

The model has five modules:

- `Wrappers` holds the `Option` type.
- `Text` covers `str.strip()`, ASCII `str.lower()`, the substring test `sub in s`, and the decimal
  text of integers and integral floats.
- `Database` holds the `Customer` record and the table as a `map`. Pure functions give the table
  after each SQL statement, and the class `Store` holds the table and is updated in place.
- `Intents` holds the reply texts, the dispatcher `Dispatch` with its first-match
  characterisation, the customer-care topic selection, and the two handlers that write. Those two
  are module-level methods that take the `Store` and update its table, each specified by a
  function of the old table.
- `Endpoints` holds the three endpoints. Each is a function from the table and the request to the
  response and the new table, and a module-level method that takes the `Store` and carries it out.

The SQLite table becomes a `map<string, Customer>`. The balance column is a `REAL`: it starts at
150.0 and each recharge adds a Python `int` to it. The model keeps the balance as an unbounded
`int` and renders it the way Python prints an integral float (`449.0`). That is exact only while
every balance and every sum stays within the range where a float holds each integer exactly;
the section on what is left out says what happens beyond it. The `amount` field of an intent
request is taken after `int(...)`: `None` when that conversion raises, and `Some(199)` when the
field is absent.

## Model

| member | source | states |
|---|---|---|
| Text.TrimStart | milestone4_backend.py:162 | the leading-whitespace half of `strip()`: the result is a suffix of the input, does not start with whitespace, and everything dropped is whitespace |
| Text.TrimEnd | milestone4_backend.py:162 | the trailing-whitespace half of `strip()`: the result is a prefix of the input, does not end with whitespace, and everything dropped is whitespace |
| Text.Strip | milestone4_backend.py:162 | `str.strip()`: the result is empty exactly when the input is all whitespace; otherwise it neither starts nor ends with whitespace; the input is the result framed by whitespace on both sides, so the result occurs inside the input |
| Text.StripIdempotent | milestone4_backend.py:292-296 | stripping an already stripped id changes nothing, so a client that sends back the id the server returned is looked up under the same key |
| Text.Lower | milestone4_backend.py:218 | lower-casing keeps the length and lower-cases each character where it stands |
| Text.LowerIdempotent | milestone4_backend.py:117 | the customer-care handler's second `lower()` on the already lower-cased command changes nothing |
| Text.Contains | milestone4_backend.py:230-247 | Python's `sub in s`: a prefix always occurs, and a word that occurs is no longer than the text |
| Text.ContainsIff | milestone4_backend.py:230-247 | the recursive substring test holds exactly when the word occurs at some index, in both directions |
| Text.NatText | milestone4_backend.py:112 | `str(n)` of a natural number: a non-empty string of digits whose value is that number, with no leading zero except for 0 itself |
| Text.IntText | milestone4_backend.py:112 | `str(i)` of an integer: a minus sign exactly when it is negative, then digits whose value is its magnitude, with no leading zero except for 0 itself |
| Text.FloatText | milestone4_backend.py:74 | `str(x)` of an integral float: the integer's text followed by ".0" |
| Database.NewCustomer | milestone4_backend.py:62-67 | the row `save_customer_db` writes has the id and name given, plan "SmartPlan 299", balance 150, phone "9999999999" and data "1.5 GB" |
| Database.Inserted | milestone4_backend.py:62-67 | insert-or-replace: the id then holds a row with that id and name, plan "SmartPlan 299", balance 150, phone "9999999999" and data "1.5 GB"; the key set gains exactly that id; every other row is unchanged |
| Database.WithPlan | milestone4_backend.py:93 | the plan update changes only plan and data allowance of that id's row, adds no row, and leaves every other row unchanged |
| Database.WithBalance | milestone4_backend.py:109 | the balance update changes only the balance of that id's row, adds no row, and leaves every other row unchanged |
| Database.Store.constructor | milestone4_backend.py:35-47 | a freshly created `customers` table is empty and well keyed |
| Database.Store.Fetch | milestone4_backend.py:52-60 | returns a row exactly when the id is stored, that row, and under a well-keyed table a row carrying the id asked for |
| Database.Store.Save | milestone4_backend.py:62-67 | after saving, fetching the id gives the default record with that id and name, and fetching any other id gives what it gave before |
| Database.Store.SetPlan | milestone4_backend.py:92-95 | the table becomes the plan update of the old table |
| Database.Store.SetBalance | milestone4_backend.py:108-111 | the table becomes the balance update of the old table |
| Intents.BalanceReply | milestone4_backend.py:73-76 | the balance reply contains the word "balance" and the balance as Python prints it |
| Intents.PlanReply | milestone4_backend.py:78-81 | the plan reply contains the customer's plan and data allowance |
| Intents.RechargeReply | milestone4_backend.py:112 | the recharge reply contains "Recharge", the amount added and the new balance |
| Intents.Dispatch | milestone4_backend.py:230-247 | the intent picked is the fallback or has one of its trigger words in the command |
| Intents.DispatchSelects | milestone4_backend.py:230-247 | the intent the dispatcher picks has one of its trigger words in the command (or is the fallback), and no intent tested earlier has any |
| Intents.SelectedUnique | milestone4_backend.py:230-247 | at most one intent is the first match for a command |
| Intents.DispatchIsFirstMatch | milestone4_backend.py:230-247 | the dispatcher picks an intent if and only if it is the first match in the order balance, plan, offer, data/upgrade, recharge, menu, care words, exit/bye, unknown |
| Intents.FirstMentionWins | milestone4_backend.py:230-247 | an intent whose trigger word occurs, when no earlier intent's word does, is the one dispatched |
| Intents.DataIsFirst | milestone4_backend.py:236-237 | a command with "data" or "upgrade" and none of "balance", "plan", "offer" goes to the data-pack handler |
| Intents.RechargeIsFirst | milestone4_backend.py:238-239 | a command with "recharge" and none of the words tested before it goes to the recharge handler |
| Intents.EarlierIntentWins | milestone4_backend.py:230-247 | a command holding a trigger word of some intent is never routed to an intent tested after it |
| Intents.BalanceAlwaysWins | milestone4_backend.py:230-231 | any command containing "balance" is a balance check, whatever else it contains |
| Intents.MainMenuMentionsMenu | milestone4_backend.py:240 | a text containing "main menu" also contains "menu", so the second test of the menu branches never decides anything |
| Intents.CareNeedsOtherWord | milestone4_backend.py:242 | a command routed to customer care contains "network", "sim", "customer", "care" or "talk", so the "recharge issue" test never decides anything |
| Intents.Topic | milestone4_backend.py:119-134 | the customer-care sub-case is the first, in the order menu ("menu", which "main menu" contains), network, "sim" or "activation", recharge, whose word occurs, and the general case exactly when none does; each case stated as if-and-only-if |
| Intents.CareReply | milestone4_backend.py:116-135 | on the lower-cased issue, the customer-care handler gives the menu message when "menu" occurs, else the network message when "network" occurs, else the SIM message for "sim" or "activation", else the recharge-issue message for "recharge", else the general care message |
| Intents.CareSkipsMenuAndRecharge | milestone4_backend.py:240-243 | a command the dispatcher sends to customer care never has the menu or recharge sub-case |
| Intents.CareTopicsReachable | milestone4_backend.py:116-135 | reached through the dispatcher, the customer-care handler only gives the network, SIM or general answer; its menu and recharge branches are unreachable |
| Intents.RechargeAmount | milestone4_backend.py:103-106 | the amount added is the parsed amount, or 199 when `int(amount)` raises |
| Intents.DataPacksOutcome | milestone4_backend.py:88-100 | with `upgrade`, the reply is "Upgraded to Premium Plan 499 successfully." and the customer's row gets plan "Premium 499" and data "2.5 GB"; without it, nothing is written and the reply is the plan details; no row is added and no other row changes |
| Intents.RechargeOutcome | milestone4_backend.py:102-114 | the customer's row gets the balance of the record in hand plus the amount; no row is added and no other row changes; the reply shows the amount and the new balance |
| Intents.RechargeAddsAmount | milestone4_backend.py:102-114 | a recharge of the customer's current row raises that balance by exactly the parsed amount (199 when it does not parse), changes nothing else, and the reply reports the amount added and the new balance |
| Intents.Respond | milestone4_backend.py:230-247 | the dispatched handler never adds or removes a row, and changes the table only on an upgrade with `upgrade` set or on a recharge |
| Intents.RespondRecharge | milestone4_backend.py:238-239 | a command routed to recharge answers with the recharge reply and a table where only that customer's balance grew by the amount |
| Intents.RespondDataPacks | milestone4_backend.py:88-100 | a data command with `upgrade` sets plan "Premium 499" and data "2.5 GB" and keeps id, name, balance and phone; without `upgrade` it writes nothing and answers exactly as the plan-details handler |
| Intents.BalanceAnswer | milestone4_backend.py:230-231 | a command routed to the balance check is answered with the balance reply, which contains "balance" |
| Intents.UpgradeAnswer | milestone4_backend.py:236-237 | a command routed to the data-pack handler with `upgrade` set is answered "Upgraded to Premium Plan 499 successfully.", which contains "Upgraded" |
| Intents.RechargeAnswer | milestone4_backend.py:238-239 | a command routed to recharge is answered with the recharge reply for the amount and the new balance, which contains "Recharge" |
| Intents.Answer | milestone4_backend.py:230-247 | running the `if`/`elif` chain on the store gives the reply and the table that `Respond` gives on the old table |
| Intents.HandleDataPacks | milestone4_backend.py:88-100 | the in-place data-pack handler gives the reply and table of the data-pack outcome of the old table |
| Intents.HandleRecharge | milestone4_backend.py:102-114 | the in-place recharge handler gives the reply and table of the recharge outcome of the old table |
| Endpoints.Command | milestone4_backend.py:218 | the command the dispatcher sees is empty exactly when the text is blank |
| Endpoints.FetchOutcome | milestone4_backend.py:155-171 | missing id gives "Missing customer ID", blank id gives "Invalid customer ID", an unknown stripped id gives `not_found`, and a known one gives its stored row carrying that id; these cases are exclusive and exhaustive |
| Endpoints.FetchCustomer | milestone4_backend.py:155-171 | the endpoint on the store gives the fetch outcome of its table |
| Endpoints.RegisterOutcome | milestone4_backend.py:177-202 | registration succeeds exactly when both fields are present, non-blank and the stripped id is new; "Missing ID or name" exactly when a field is absent, "Invalid ID or name" exactly when both are present and one is blank, "Customer ID already exists" for a taken id; every refusal is a 400 and leaves the table unchanged, including the existing row; a success inserts the default record under the stripped id and name and returns it with the message |
| Endpoints.Register | milestone4_backend.py:177-202 | the check-then-write sequence on the store gives the registration outcome of the old table and keeps the table well keyed |
| Endpoints.RegisterThenFetch | milestone4_backend.py:292-296 | a successful registration returns the default record under the stripped id and name, and fetching afterwards, with the id as sent or with the id the response carries, returns that record |
| Endpoints.IntentOutcome | milestone4_backend.py:212-249 | "Missing ID or text" exactly when a field is absent, "Invalid ID or text" exactly when both are present and one is blank (both 400), a well-formed request for an unknown id is the 404 "Customer not found", and only a well-formed request for a known id is answered; every failure leaves the table unchanged; no request adds or removes a row |
| Endpoints.HandleIntent | milestone4_backend.py:212-249 | the endpoint on the store gives the intent outcome of the old table |
| Endpoints.IntentAnswered | milestone4_backend.py:222-249 | a well-formed request for a known id is answered by the dispatcher on that id's stored row and the stripped, lower-cased text |
| Endpoints.IntentReadOnly | milestone4_backend.py:230-247 | every intent other than an upgrade with `upgrade` set or a recharge leaves the table exactly as it was |
| Endpoints.CommandUnchanged | milestone4_backend.py:218 | a text already trimmed and free of upper-case letters reaches the dispatcher unchanged |
| Endpoints.CheckBalanceInput | milestone4_backend.py:298-299 | the text "check balance" needs no stripping, is its own command, is a balance check, and its reply contains "balance" |
| Endpoints.UpgradeInput | milestone4_backend.py:301-302 | the text "upgrade my data" needs no stripping, is its own command, is a data-pack request, and with `upgrade` set its reply contains "Upgraded" |
| Endpoints.RechargeInput | milestone4_backend.py:304-305 | the text "recharge" needs no stripping, is its own command, is a recharge, and its reply contains "Recharge" |
| Endpoints.BalanceWord | milestone4_backend.py:298 | "check balance" contains "balance" |
| Endpoints.UpgradeWords | milestone4_backend.py:301 | "upgrade my data" contains "data" and none of "balance", "plan", "offer" |
| Endpoints.UpgradeLacks | milestone4_backend.py:301 | "upgrade my data" contains none of "balance", "plan", "offer" |
| Endpoints.RechargeWords | milestone4_backend.py:304 | "recharge" contains "recharge" and none of "balance", "plan", "offer", "data", "upgrade" |

## Left out

- The SQLite connection, SQL execution and the `CREATE TABLE` schema of `init_db`: the table is an in-memory map (the `Store` constructor gives the empty table `init_db` creates), and each SQL statement is the map operation it performs.
- The Flask application, CORS, routing, `request.get_json`, `jsonify` and `send_file` for `/`. A response is a datatype of JSON payloads with the HTTP code kept where it is not 200. A request field that is present but not a string (which makes `.strip()` raise) is not modelled.
- The rate limiter on `/intent`: it is an external, time-windowed counter.
- Logging: every `logger` call is output only.
- The `except Exception` branches that answer 500: they depend on failures of foreign code.
- Text.Lower: lower-cases ASCII letters only, where Python's `str.lower()` also lower-cases other Unicode letters.
- Intents.RechargeOutcome: adds the amount to the balance as an unbounded integer, where `milestone4_backend.py:107` adds a Python `int` to a float. Two float effects are not modelled. Rounding: once a sum passes 2^53 it is rounded (150.0 + (2^53 + 1) is not exact), so the stored balance and the reply are not the exact sum. Overflow: an `int` amount too large for a float makes the `+=` at line 107, outside the `try` of lines 103-106, raise `OverflowError`; the endpoint then answers 500 and writes nothing, while the model answers and writes. `HandleRecharge`, `RechargeAddsAmount`, `RespondRecharge` and `Database.WithBalance` inherit this.
- Text.FloatText: renders an integral float as its integer digits followed by ".0", which is how Python prints such a value only below 10^16 in magnitude; the exponent form Python uses beyond that is not modelled.
- The coercion `int(amount)` (truncating floats, `True` to 1, parsing strings) is an input: the request carries its result, or `None` when it raises.
- The truthiness of a non-boolean `upgrade` value: the request carries it as a `bool`.
- Concurrency: the lost update between simultaneous recharges and the non-atomic check-then-insert of `register`.
- The performance test and the log-file test. The end-to-end test is modelled request by request (registration then fetch, and the three commands it sends reaching their handlers), not as a single chained lemma over all five requests.
