/**
 * The decision logic of the profile controller: the profile update (`PUT`)
 * diff, the custodial top-up of a new user (which legs to send, with which
 * nonces and amounts), and the guards in front of identity creation.
 *
 * Requests and responses are values.  Every read the controller makes of the
 * ledger, the token contract or the currency converter has its answer passed
 * in as a parameter, and every such call, and every transaction it submits,
 * is recorded in order in the returned list of `Call`s, so that "nothing is
 * read or submitted" is a statement about that list.
 */
module ProfileController {
  import opened Wrappers

  // ----- Profile update -----

  /** The JavaScript values a request parameter or a user attribute can hold. */
  datatype JsValue = Undefined | Null | Bool(b: bool) | Num(n: real) | NaN | Str(s: string)

  /** `!!v`. */
  predicate Truthy(v: JsValue) {
    match v
    case Undefined => false
    case Null => false
    case NaN => false
    case Bool(b) => b
    case Num(n) => n != 0.0
    case Str(s) => s != ""
  }

  /** `a === b`: `NaN` is equal to nothing, itself included. */
  predicate StrictEquals(a: JsValue, b: JsValue) {
    a == b && a != NaN
  }

  /** `object[key]`, which is `undefined` for a missing key. */
  function Get(m: map<string, JsValue>, key: string): JsValue {
    if key in m then m[key] else Undefined
  }

  /** The parameters a profile update may touch (`updateAttrs`). */
  const UpdateAttrs: set<string> :=
    {"email", "legalName", "dateOfBirth", "postalCode", "address", "agent", "interestRate"}

  /** The two role constants of the user model. */
  datatype Roles = Roles(agent: JsValue, smartPhone: JsValue)

  /**
   * `typeof agent === 'string' ? agent !== 'false' : !!agent`: it departs
   * from plain truthiness on exactly two strings, so an empty `agent` string
   * makes the user an agent and `'false'` does not.
   */
  function AgentFlag(agent: JsValue): (r: bool)
    ensures r != Truthy(agent) <==> agent == Str("") || agent == Str("false")
  {
    if agent.Str? then agent.s != "false" else Truthy(agent)
  }

  /**
   * What the update proposes, key by key, before it is compared with the
   * user: `role` always (from the `agent` parameter), every other allowed
   * parameter that was sent except `agent`, with `interestRate` passed
   * through `parse` (JavaScript's `parseFloat`) unless it is `undefined`.
   */
  ghost function Proposed(params: map<string, JsValue>, parse: JsValue -> JsValue, roles: Roles)
    : map<string, JsValue>
  {
    map k | k in ({"role"} + (params.Keys * UpdateAttrs - {"agent"})) ::
      if k == "role" then (if AgentFlag(Get(params, "agent")) then roles.agent else roles.smartPhone)
      else if k == "interestRate" && params[k] != Undefined then parse(params[k])
      else params[k]
  }

  /** The proposed values that differ (`!==`) from the user's current ones. */
  ghost function Changes(params: map<string, JsValue>, user: map<string, JsValue>,
                         parse: JsValue -> JsValue, roles: Roles): map<string, JsValue>
  {
    var p := Proposed(params, parse, roles);
    map k | k in p && !StrictEquals(Get(user, k), p[k]) :: p[k]
  }

  datatype ProfileReply = NothingChanged | UpdateUser(values: map<string, JsValue>)

  /**
   * `PUT /profile`: pick the allowed parameters, turn `agent` into a role,
   * drop `agent`, parse `interestRate`, keep only the values that differ
   * from the user's, and reject an empty result with "Nothing was changed".
   */
  method UpdateProfile(params: map<string, JsValue>, user: map<string, JsValue>,
                       parse: JsValue -> JsValue, roles: Roles) returns (reply: ProfileReply)
    ensures var c := Changes(params, user, parse, roles);
      reply == if c == map[] then NothingChanged else UpdateUser(c)
  {
    var values := map k | k in params && k in UpdateAttrs :: params[k];
    var agent := AgentFlag(Get(values, "agent"));
    values := values["agent" := Bool(agent)];
    values := values["role" := if agent then roles.agent else roles.smartPhone];
    values := values - {"agent"};
    if "interestRate" in values && values["interestRate"] != Undefined {
      values := values["interestRate" := parse(values["interestRate"])];
    }
    assert values == Proposed(params, parse, roles);
    values := map k | k in values && !StrictEquals(Get(user, k), values[k]) :: values[k];
    if values == map[] {
      reply := NothingChanged;
    } else {
      reply := UpdateUser(values);
    }
  }

  /** An update writes only allowed attributes and the role, never `agent`. */
  lemma ChangesOnlyAllowedKeys(params: map<string, JsValue>, user: map<string, JsValue>,
                               parse: JsValue -> JsValue, roles: Roles)
    ensures Changes(params, user, parse, roles).Keys <= (UpdateAttrs - {"agent"}) + {"role"}
    ensures "agent" !in Changes(params, user, parse, roles)
  {
  }

  /**
   * The role written is the agent role exactly when the `agent` parameter
   * reads as true, and it is written exactly when it differs from the
   * user's current role; an absent `agent` means the smartphone role.
   */
  lemma RoleFromAgent(params: map<string, JsValue>, user: map<string, JsValue>,
                      parse: JsValue -> JsValue, roles: Roles)
    ensures var c := Changes(params, user, parse, roles);
      var role := if AgentFlag(Get(params, "agent")) then roles.agent else roles.smartPhone;
      && ("role" in c <==> !StrictEquals(Get(user, "role"), role))
      && ("role" in c ==> c["role"] == role)
    ensures "agent" !in params ==> Proposed(params, parse, roles)["role"] == roles.smartPhone
  {
    assert "role" in Proposed(params, parse, roles);
  }

  /**
   * Every other allowed parameter (not `agent`, not `interestRate`) is
   * written unchanged exactly when it differs from the user's value.
   */
  lemma PlainAttributeChanged(params: map<string, JsValue>, user: map<string, JsValue>,
                              parse: JsValue -> JsValue, roles: Roles, k: string)
    requires k in UpdateAttrs && k != "agent" && k != "interestRate"
    ensures var c := Changes(params, user, parse, roles);
      && (k in c <==> k in params && !StrictEquals(Get(user, k), params[k]))
      && (k in c ==> c[k] == params[k])
  {
    if k in params {
      assert k in Proposed(params, parse, roles);
    }
  }

  /**
   * Writing the changes and sending the same request again changes nothing,
   * unless parsing the interest rate produced `NaN` (which never compares
   * equal, so it is written every time).
   */
  lemma UpdateThenNothingChanged(params: map<string, JsValue>, user: map<string, JsValue>,
                                 parse: JsValue -> JsValue, roles: Roles)
    requires forall k :: k in Proposed(params, parse, roles) ==> Proposed(params, parse, roles)[k] != NaN
    ensures Changes(params, user + Changes(params, user, parse, roles), parse, roles) == map[]
  {
    var p := Proposed(params, parse, roles);
    var c := Changes(params, user, parse, roles);
    forall k | k in p
      ensures StrictEquals(Get(user + c, k), p[k])
    {
      if k in c {
        assert Get(user + c, k) == p[k];
      } else {
        assert Get(user + c, k) == Get(user, k);
      }
    }
  }

  // ----- Custodial top-up -----

  /** The user fields the top-up reads; an empty string is a missing (falsy) field. */
  datatype User = User(owner: string, identity: string, currency: string, erc20Token: string)

  /** `newUserMoney`: what a new user is given, in ether and in US dollars. */
  datatype NewUserMoney = NewUserMoney(eth: real, eUSD: real)

  /** A transaction the custodial wallet submits; `nonce` only in the batch. */
  datatype Tx =
    | SendEth(to: string, eth: real, nonce: Option<int>)
    | TransferTokens(to: string, value: real, tokenAddress: string, nonce: Option<int>)

  /** A call to the outside world, in the order the controller issues them. */
  datatype Call =
    | GetTransactionCount
    | GetBalance(address: string)
    | BalanceOf(address: string, tokenAddress: string)
    | Convert(pair: string)
    | Submit(tx: Tx)

  /** The response: the transactions submitted, a 400 `badRequest`, or a rejection with a status. */
  datatype Reply = Ok(txs: seq<Tx>) | BadRequest(message: string) | Failed(status: int, message: string)

  datatype Handled = Handled(reply: Reply, calls: seq<Call>)

  const NoOwner := "Current user do not has owner"
  const NoIdentity := "Current user do not has identity"
  const HasEthers := "User owner address already has ethers"
  const HasTokens := "User identity address already has eFiats"
  const AlreadyFunded := "User ethereum and eFiats balances are not empty"

  const ReferenceCurrency := "USD"

  /** The transactions among `calls`, in order. */
  function Submitted(calls: seq<Call>): seq<Tx> {
    if calls == [] then []
    else (if calls[0].Submit? then [calls[0].tx] else []) + Submitted(calls[1..])
  }

  lemma {:induction false} SubmittedAppend(a: seq<Call>, b: seq<Call>)
    ensures Submitted(a + b) == Submitted(a) + Submitted(b)
  {
    if a == [] {
      assert a + b == b;
    } else {
      var head := if a[0].Submit? then [a[0].tx] else [];
      assert (a + b)[0] == a[0];
      assert (a + b)[1..] == a[1..] + b;
      SubmittedAppend(a[1..], b);
      calc {
        Submitted(a + b);
        head + Submitted(a[1..] + b);
        head + (Submitted(a[1..]) + Submitted(b));
        (head + Submitted(a[1..])) + Submitted(b);
      }
    }
  }

  /** Calls that submit nothing contribute no transaction. */
  lemma {:induction false} SubmittedNone(calls: seq<Call>)
    requires forall i :: 0 <= i < |calls| ==> !calls[i].Submit?
    ensures Submitted(calls) == []
  {
    if calls != [] {
      SubmittedNone(calls[1..]);
    }
  }

  /** The converter call the token amount needs: none for US dollars. */
  function ConversionCalls(currency: string): (r: seq<Call>)
    ensures Submitted(r) == []
  {
    if currency == ReferenceCurrency then [] else [Convert("USD_" + currency)]
  }

  /**
   * The token amount of a top-up: the dollar amount for a dollar user,
   * otherwise the dollar amount times the `USD_<currency>` rate.
   */
  function TokenTopUp(currency: string, money: NewUserMoney, rate: real): real {
    if currency == ReferenceCurrency then money.eUSD else rate * money.eUSD
  }

  /**
   * `sendMoneyFromKora`: for a user with an owner and an identity, read the
   * custodial wallet's transaction count `count` and the two balances, then
   * send ether if the owner has none and tokens if the identity has none.
   * The nonce counter is decremented once and incremented before each
   * scheduled leg, so the legs get `count`, `count + 1`, ... in order and a
   * skipped leg consumes no value.  With no leg needed the request fails
   * with status 400 and nothing is submitted.
   */
  method SendMoneyFromKora(user: User, money: NewUserMoney, count: int,
                           ethBalance: int, tokenBalance: int, rate: real) returns (h: Handled)
    ensures user.owner == "" ==> h == Handled(BadRequest(NoOwner), [])
    ensures user.owner != "" && user.identity == "" ==> h == Handled(BadRequest(NoIdentity), [])
    ensures user.owner != "" && user.identity != "" ==>
      && |h.calls| >= 3
      && h.calls[..3] == [GetTransactionCount, GetBalance(user.owner), BalanceOf(user.identity, user.erc20Token)]
      && (h.reply.Failed? <==> ethBalance != 0 && tokenBalance != 0)
      && (h.reply.Failed? ==> h.reply.status == 400 && h.reply.message == AlreadyFunded)
      && !h.reply.BadRequest?
    ensures h.reply.Ok? ==>
      var txs := h.reply.txs;
      && |txs| == (if ethBalance == 0 then 1 else 0) + (if tokenBalance == 0 then 1 else 0)
      && (forall i :: 0 <= i < |txs| ==> txs[i].nonce == Some(count + i))
      && (ethBalance == 0 ==> txs[0] == SendEth(user.owner, money.eth, Some(count)))
      && (tokenBalance == 0 ==>
            txs[|txs| - 1] == TransferTokens(user.identity, TokenTopUp(user.currency, money, rate),
                                             user.erc20Token, Some(if ethBalance == 0 then count + 1 else count)))
    ensures h.reply.Ok? ==> Submitted(h.calls) == h.reply.txs
    ensures !h.reply.Ok? ==> Submitted(h.calls) == []
    ensures Convert("USD_" + user.currency) in h.calls ==> tokenBalance == 0 && user.currency != ReferenceCurrency
  {
    if user.owner == "" {
      return Handled(BadRequest(NoOwner), []);
    }
    if user.identity == "" {
      return Handled(BadRequest(NoIdentity), []);
    }
    var calls := [GetTransactionCount, GetBalance(user.owner), BalanceOf(user.identity, user.erc20Token)];
    SubmittedNone(calls);
    var nonce := count;
    var txs: seq<Tx> := [];
    nonce := nonce - 1;
    if ethBalance == 0 {
      nonce := nonce + 1;
      var tx := SendEth(user.owner, money.eth, Some(nonce));
      txs := txs + [tx];
      SubmittedAppend(calls, [Submit(tx)]);
      calls := calls + [Submit(tx)];
    }
    if tokenBalance == 0 {
      var value := TokenTopUp(user.currency, money, rate);
      SubmittedAppend(calls, ConversionCalls(user.currency));
      calls := calls + ConversionCalls(user.currency);
      nonce := nonce + 1;
      var tx := TransferTokens(user.identity, value, user.erc20Token, Some(nonce));
      txs := txs + [tx];
      SubmittedAppend(calls, [Submit(tx)]);
      calls := calls + [Submit(tx)];
    }
    if txs == [] {
      return Handled(Failed(400, AlreadyFunded), calls);
    }
    return Handled(Ok(txs), calls);
  }

  /** The example run: count 10, both balances empty, euro user at rate 0.9. */
  method TopUpScenario() {
    var user := User("0xowner", "0xidentity", "EUR", "0xtoken");
    var h := SendMoneyFromKora(user, NewUserMoney(1.0, 20.0), 10, 0, 0, 0.9);
    assert h.reply.txs == [SendEth("0xowner", 1.0, Some(10)),
                           TransferTokens("0xidentity", 18.0, "0xtoken", Some(11))];
    var only := SendMoneyFromKora(user, NewUserMoney(1.0, 20.0), 5, 7, 0, 0.9);
    assert only.reply.txs[0].nonce == Some(5);
  }

  /**
   * `sendEthFromKora`: a user without an owner is refused before any call;
   * an owner with a non-zero ether balance is refused after the balance
   * read; otherwise the ether is sent (without an explicit nonce).
   */
  function SendEthFromKora(user: User, money: NewUserMoney, balance: int): (h: Handled)
    ensures user.owner == "" ==> h == Handled(BadRequest(NoOwner), [])
    ensures user.owner != "" ==> |h.calls| > 0 && h.calls[0] == GetBalance(user.owner)
    ensures h.reply.Ok? <==> user.owner != "" && balance == 0
    ensures user.owner != "" && balance != 0 ==> h.reply == BadRequest(HasEthers)
    ensures h.reply.Ok? ==> h.reply.txs == [SendEth(user.owner, money.eth, None)]
    ensures Submitted(h.calls) == if h.reply.Ok? then h.reply.txs else []
  {
    if user.owner == "" then Handled(BadRequest(NoOwner), [])
    else if balance != 0 then Handled(BadRequest(HasEthers), [GetBalance(user.owner)])
    else
      var tx := SendEth(user.owner, money.eth, None);
      SubmittedAppend([GetBalance(user.owner)], [Submit(tx)]);
      Handled(Ok([tx]), [GetBalance(user.owner), Submit(tx)])
  }

  /**
   * `transferFromKora`: a user without an identity is refused before any
   * call; an identity holding tokens is refused after the balance read;
   * otherwise the top-up amount is worked out (converting from dollars when
   * needed) and the tokens are sent (without an explicit nonce).
   */
  function TransferFromKora(user: User, money: NewUserMoney, balance: int, rate: real): (h: Handled)
    ensures user.identity == "" ==> h == Handled(BadRequest(NoIdentity), [])
    ensures user.identity != "" ==> |h.calls| > 0 && h.calls[0] == BalanceOf(user.identity, user.erc20Token)
    ensures h.reply.Ok? <==> user.identity != "" && balance == 0
    ensures user.identity != "" && balance != 0 ==> h.reply == BadRequest(HasTokens)
    ensures h.reply.Ok? ==>
      && h.reply.txs == [TransferTokens(user.identity, TokenTopUp(user.currency, money, rate), user.erc20Token, None)]
      && (user.currency == ReferenceCurrency ==> h.reply.txs[0].value == money.eUSD)
      && (user.currency != ReferenceCurrency ==> h.reply.txs[0].value == rate * money.eUSD)
    ensures Submitted(h.calls) == if h.reply.Ok? then h.reply.txs else []
  {
    if user.identity == "" then Handled(BadRequest(NoIdentity), [])
    else if balance != 0 then Handled(BadRequest(HasTokens), [BalanceOf(user.identity, user.erc20Token)])
    else
      var tx := TransferTokens(user.identity, TokenTopUp(user.currency, money, rate), user.erc20Token, None);
      var calls := [BalanceOf(user.identity, user.erc20Token)] + ConversionCalls(user.currency) + [Submit(tx)];
      SubmittedAppend([BalanceOf(user.identity, user.erc20Token)], ConversionCalls(user.currency));
      SubmittedAppend([BalanceOf(user.identity, user.erc20Token)] + ConversionCalls(user.currency), [Submit(tx)]);
      Handled(Ok([tx]), calls)
  }

  // ----- Identity creation guards -----

  const HasIdentityAlready := "Current user already has identity"
  const BadOwner := "Param 'owner' must be set and must be ethereum address"
  const BadRecoveryKey := "Param 'recoveryKey' must be set and must be ethereum address"

  /**
   * The `createIdentity` parameters; `ownerIsAddress` and
   * `recoveryKeyIsAddress` are the address validator's verdicts.
   */
  datatype IdentityParams = IdentityParams(owner: string, ownerIsAddress: bool,
                                           recoveryKey: string, recoveryKeyIsAddress: bool)

  /**
   * The guards as written: `!owner && !isAddress(owner)` (and the same for
   * the recovery key) rejects only a missing value, so a present value that
   * is not an address gets through.  `None` means the request proceeds.
   */
  function CreateIdentityGuardsAsWritten(user: User, p: IdentityParams): (r: Option<string>)
    ensures r.None? <==>
      user.identity == "" && (p.owner != "" || p.ownerIsAddress) && (p.recoveryKey != "" || p.recoveryKeyIsAddress)
    ensures user.identity != "" ==> r == Some(HasIdentityAlready)
    ensures r == Some(BadOwner) <==> user.identity == "" && p.owner == "" && !p.ownerIsAddress
  {
    if user.identity != "" then Some(HasIdentityAlready)
    else if p.owner == "" && !p.ownerIsAddress then Some(BadOwner)
    else if p.recoveryKey == "" && !p.recoveryKeyIsAddress then Some(BadRecoveryKey)
    else None
  }

  /** A non-address owner passes the guards as written. */
  lemma GuardsAsWrittenAcceptNonAddress()
    ensures CreateIdentityGuardsAsWritten(User("", "", "USD", ""),
                                          IdentityParams("not-an-address", false, "0xkey", true)) == None
    ensures CreateIdentityGuards(User("", "", "USD", ""),
                                 IdentityParams("not-an-address", false, "0xkey", true)) == Some(BadOwner)
  {
  }

  /**
   * The guards as their messages say they are meant: a user with an
   * identity is refused first; then the owner and then the recovery key
   * must each be set and be an address.
   */
  function CreateIdentityGuards(user: User, p: IdentityParams): (r: Option<string>)
    ensures r.None? <==>
      user.identity == "" && p.owner != "" && p.ownerIsAddress && p.recoveryKey != "" && p.recoveryKeyIsAddress
    ensures user.identity != "" ==> r == Some(HasIdentityAlready)
    ensures user.identity == "" && (p.owner == "" || !p.ownerIsAddress) ==> r == Some(BadOwner)
  {
    if user.identity != "" then Some(HasIdentityAlready)
    else if p.owner == "" || !p.ownerIsAddress then Some(BadOwner)
    else if p.recoveryKey == "" || !p.recoveryKeyIsAddress then Some(BadRecoveryKey)
    else None
  }

  /**
   * The corrected guards only refuse more: what they let through, the
   * guards as written let through too, and both refuse a user who already
   * has an identity.
   */
  lemma GuardsCorrectedStricter(user: User, p: IdentityParams)
    ensures CreateIdentityGuards(user, p).None? ==> CreateIdentityGuardsAsWritten(user, p).None?
    ensures user.identity != "" ==> CreateIdentityGuardsAsWritten(user, p) == Some(HasIdentityAlready)
  {
  }
}
