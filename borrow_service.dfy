/**
 * The loan-record state machine of the borrow service: what happens to a
 * borrow record once the ledger has answered a `createLoan`, an `agreeLoan`
 * or a `fundLoan`/`payBackLoan` submission.
 *
 * The ledger, the token approvals, the database and the logger are not
 * modelled: their answers are parameters (a `Submission`, an `Approvals`
 * value, the populated guarantor identities, whether the settlement entry
 * was stored) and what the service asks the database to do is returned as
 * an ordered list of `Write`s.  The record itself is an object whose fields
 * the three methods update in place, as the service does.
 */
module BorrowService {
  import opened Wrappers
  import opened Text

  type Hash = string
  type UserRef = string

  /** Borrow states; the service itself only ever writes `OnGoing` and `Agreed`. */
  datatype LoanState = OnGoing | Agreed | OtherState(name: string)

  /** Borrow types: which transaction is expected next after a failure. */
  datatype LoanType = Request | Loan | OtherType(name: string)

  /**
   * One ledger submission's outcome: a confirmed receipt with its decoded
   * event, or a rejection that carries the receipt's hash when the
   * transaction was mined and reverted.
   */
  datatype Submission<E> = Confirmed(hash: Hash, event: E) | Rejected(receipt: Option<Hash>)

  /** Decoded event values; ledger integers are normalised to `int`. */
  datatype CreateLoanEvent = CreateLoanEvent(loanId: int)
  datatype AgreeEvent = AgreeEvent(loanId: int, guarantor: string)
  datatype TransferEvent = TransferEvent(borrowerBalance: int, lenderBalance: int,
                                         borrowerValue: int, lenderValue: int)

  /** The batch of token approvals: all confirmed, or the first rejection. */
  datatype Approvals = AllApproved | ApprovalFailed(receipt: Option<Hash>)

  datatype TxState = TxSuccess | TxError
  datatype TxType = BorrowFund | BorrowPayBack

  /** The parties and amounts a settlement entry receives for a fund or payback leg. */
  datatype Transfer = Transfer(txType: TxType, from: Option<UserRef>, to: Option<UserRef>,
                               fromAmount: real, toAmount: real)

  /** A "Transactions" settlement entry: only the last observed hash is kept. */
  datatype Settlement = Settlement(state: TxState, additionalNote: string, loanId: Option<int>,
                                   lastHash: Option<Hash>, transfer: Option<Transfer>)

  /** What the service asks the database to do, in order. */
  datatype Write = UpdateRecord | DestroyRecord | CreateSettlement(entry: Settlement)

  /** The token has two decimals (`koraTokenExponent`). */
  const TokenExponent: nat := 2

  /** `10^n`. */
  function Pow10(n: nat): (r: nat)
    ensures r > 0
  {
    if n == 0 then 1 else 10 * Pow10(n - 1)
  }

  /** A ledger integer divided by `10^koraTokenExponent`, exactly. */
  function TokenValue(units: int): (r: real)
    ensures r * 100.0 == units as real
    ensures r == 0.0 <==> units == 0
  {
    assert Pow10(TokenExponent) == 100;
    units as real / Pow10(TokenExponent) as real
  }

  /** The hash a rejection contributes to the audit trail: its receipt's, if any. */
  function Harvest(receipt: Option<Hash>): seq<Hash> {
    if receipt.Some? then [receipt.value] else []
  }

  /** `hashes[hashes.length - 1]`, which is `undefined` on an empty list. */
  function LastHash(hashes: seq<Hash>): Option<Hash> {
    if hashes == [] then None else Some(hashes[|hashes| - 1])
  }

  /** Outcome of the guarantor search over the populated record. */
  datatype Lookup = Found(slot: nat) | NotFound | MissingIdentity(slot: nat)

  /**
   * Slot `j` does not stop the search: it is empty, or its populated
   * identity differs from `who` ignoring case.
   */
  predicate Passed(slots: seq<Option<UserRef>>, identities: seq<Option<string>>, who: string, j: int)
    requires |identities| == |slots| && 0 <= j < |slots|
  {
    slots[j].None? || (identities[j].Some? && !SameAddress(identities[j].value, who))
  }

  /**
   * The guarantor search from slot `i` on: only present slots are looked at,
   * in order; the first whose identity equals `who` ignoring case is found.
   * A present slot whose populated user has no identity makes
   * `identity.toLowerCase()` throw, which ends the search.
   */
  function FindGuarantor(slots: seq<Option<UserRef>>, identities: seq<Option<string>>,
                         who: string, i: nat): (r: Lookup)
    requires |identities| == |slots| && i <= |slots|
    decreases |slots| - i
    ensures r.Found? ==>
      && i <= r.slot < |slots| && slots[r.slot].Some? && identities[r.slot].Some?
      && SameAddress(identities[r.slot].value, who)
    ensures r.MissingIdentity? ==>
      i <= r.slot < |slots| && slots[r.slot].Some? && identities[r.slot].None?
    ensures !r.NotFound? ==> forall j :: i <= j < r.slot ==> Passed(slots, identities, who, j)
    ensures r.NotFound? <==> forall j :: i <= j < |slots| ==> Passed(slots, identities, who, j)
  {
    if i == |slots| then NotFound
    else if slots[i].None? then FindGuarantor(slots, identities, who, i + 1)
    else if identities[i].None? then assert !Passed(slots, identities, who, i); MissingIdentity(i)
    else if SameAddress(identities[i].value, who) then assert !Passed(slots, identities, who, i); Found(i)
    else FindGuarantor(slots, identities, who, i + 1)
  }

  /** Every present guarantor slot's `Agree` flag is truthy. */
  predicate AllPresentAgreed(slots: seq<Option<UserRef>>, flags: seq<Option<bool>>)
    requires |flags| == |slots|
  {
    forall j :: 0 <= j < |slots| && slots[j].Some? ==> flags[j] == Some(true)
  }

  /**
   * The parties and amounts of the settlement entry, as the two
   * `Object.assign` calls leave them: a fund leg swaps the record's parties
   * and amounts; a payback leg takes the parties as they are and the amounts
   * the ledger reported; when both raw transactions are given, the payback
   * assignment runs last and wins.
   */
  function SettlementTransfer(fund: bool, payBack: bool, from: UserRef, to: Option<UserRef>,
                              fromAmount: real, toAmount: real,
                              fromValue: real, toValue: real): Option<Transfer>
  {
    if payBack then Some(Transfer(BorrowPayBack, Some(from), to, fromValue, toValue))
    else if fund then Some(Transfer(BorrowFund, to, Some(from), toAmount, fromAmount))
    else None
  }

  /**
   * The two legs mirror each other: the fund entry between the record's
   * parties is the payback entry with the parties exchanged, carrying the
   * record's amounts exchanged where the payback carries the reported
   * values; with both raw transactions the payback entry wins, and with
   * neither there is no transfer.
   */
  lemma SettlementLegsMirror(from: UserRef, to: Option<UserRef>, fromAmount: real, toAmount: real,
                             fromValue: real, toValue: real)
    ensures var f := SettlementTransfer(true, false, from, to, fromAmount, toAmount, fromValue, toValue);
      var p := SettlementTransfer(false, true, from, to, fromAmount, toAmount, toAmount, fromAmount);
      && f.Some? && p.Some?
      && f.value.txType == BorrowFund && p.value.txType == BorrowPayBack
      && f.value.from == p.value.to && f.value.to == p.value.from
      && f.value.fromAmount == p.value.fromAmount && f.value.toAmount == p.value.toAmount
    ensures SettlementTransfer(true, true, from, to, fromAmount, toAmount, fromValue, toValue)
         == SettlementTransfer(false, true, from, to, fromAmount, toAmount, fromValue, toValue)
    ensures SettlementTransfer(false, false, from, to, fromAmount, toAmount, fromValue, toValue).None?
  {
  }

  /** A borrow record as the service holds it in memory. */
  class BorrowRecord {
    const id: string
    var transactionHashes: seq<Hash>
    var loanId: Option<int>
    var state: LoanState
    var loanType: LoanType
    var from: UserRef
    var to: Option<UserRef>
    var toAgree: Option<bool>
    /** `guarantor1` .. `guarantor3`; `None` is an empty slot. */
    var guarantors: seq<Option<UserRef>>
    /** `guarantor1Agree` .. `guarantor3Agree`; `None` is `null`. */
    var guarantorsAgree: seq<Option<bool>>
    var fromAmount: real
    var toAmount: real
    var fromBalance: real
    var toBalance: real
    var additionalNote: string

    ghost predicate Valid()
      reads this
    {
      |guarantors| == 3 && |guarantorsAgree| == 3
    }

    /** The fields none of the three operations writes. */
    ghost function Fixed(): (UserRef, Option<UserRef>, seq<Option<UserRef>>, real, real, string)
      reads this
    {
      (from, to, guarantors, fromAmount, toAmount, additionalNote)
    }

    constructor (id: string, state: LoanState, loanType: LoanType, loanId: Option<int>,
                 from: UserRef, to: Option<UserRef>, toAgree: Option<bool>,
                 guarantors: seq<Option<UserRef>>, guarantorsAgree: seq<Option<bool>>,
                 fromAmount: real, toAmount: real, fromBalance: real, toBalance: real,
                 additionalNote: string, transactionHashes: seq<Hash>)
      requires |guarantors| == 3 && |guarantorsAgree| == 3
      ensures Valid()
      ensures this.id == id && this.state == state && this.loanType == loanType
      ensures this.loanId == loanId && this.from == from && this.to == to && this.toAgree == toAgree
      ensures this.guarantors == guarantors && this.guarantorsAgree == guarantorsAgree
      ensures this.fromAmount == fromAmount && this.toAmount == toAmount
      ensures this.fromBalance == fromBalance && this.toBalance == toBalance
      ensures this.additionalNote == additionalNote && this.transactionHashes == transactionHashes
    {
      this.id, this.state, this.loanType, this.loanId := id, state, loanType, loanId;
      this.from, this.to, this.toAgree := from, to, toAgree;
      this.guarantors, this.guarantorsAgree := guarantors, guarantorsAgree;
      this.fromAmount, this.toAmount := fromAmount, toAmount;
      this.fromBalance, this.toBalance := fromBalance, toBalance;
      this.additionalNote, this.transactionHashes := additionalNote, transactionHashes;
    }

    /**
     * After `KoraLend.createLoan`.  Confirmed: the hash is appended, the
     * event's loan id copied, the loan is on going and the `Agree` flag of
     * every present party among the lender and the three guarantors is reset
     * to `null`.  Rejected: back to an agreed request, with the mined
     * receipt's hash appended if there is one.  Either way the record is
     * written back.
     */
    method SendRawCreateLoan(outcome: Submission<CreateLoanEvent>) returns (writes: seq<Write>)
      requires Valid()
      modifies this
      ensures Valid() && Fixed() == old(Fixed())
      ensures fromBalance == old(fromBalance) && toBalance == old(toBalance)
      ensures writes == [UpdateRecord]
      ensures outcome.Confirmed? ==>
        && transactionHashes == old(transactionHashes) + [outcome.hash]
        && loanId == Some(outcome.event.loanId)
        && state == OnGoing && loanType == old(loanType)
        && toAgree == (if to.Some? then None else old(toAgree))
        && forall j :: 0 <= j < 3 ==>
             guarantorsAgree[j] == if guarantors[j].Some? then None else old(guarantorsAgree[j])
      ensures outcome.Rejected? ==>
        && transactionHashes == old(transactionHashes) + Harvest(outcome.receipt)
        && loanId == old(loanId) && state == Agreed && loanType == Request
        && toAgree == old(toAgree) && guarantorsAgree == old(guarantorsAgree)
    {
      match outcome {
        case Confirmed(hash, event) =>
          transactionHashes := transactionHashes + [hash];
          loanId := Some(event.loanId);
          state := OnGoing;
          if to.Some? {
            toAgree := None;
          }
          var flags := guarantorsAgree;
          var j := 0;
          while j < 3
            invariant 0 <= j <= 3 && |flags| == 3
            invariant forall k :: 0 <= k < j ==>
              flags[k] == if guarantors[k].Some? then None else old(guarantorsAgree[k])
            invariant forall k :: j <= k < 3 ==> flags[k] == old(guarantorsAgree[k])
          {
            if guarantors[j].Some? {
              flags := flags[j := None];
            }
            j := j + 1;
          }
          guarantorsAgree := flags;
        case Rejected(receipt) =>
          state := Agreed;
          loanType := Request;
          if receipt.Some? {
            transactionHashes := transactionHashes + [receipt.value];
          }
      }
      writes := [UpdateRecord];
    }

    /**
     * After `KoraLend.agreeLoan`.  `populated` is the re-read record's
     * guarantor identities (`None` when the read failed).
     *
     * A confirmed submission appends its hash first.  A loan-id mismatch and
     * a failed read are rejections that reach the same handler as a ledger
     * failure: the loan is on going again and the record is written, with no
     * further hash (those errors carry no receipt).  Otherwise the first
     * present guarantor whose identity matches the event's, ignoring case,
     * agrees, and the loan is agreed exactly when every present guarantor
     * has agreed; when no slot matches (or a searched slot has no identity)
     * nothing is written.
     */
    method SendRawAgreeLoan(outcome: Submission<AgreeEvent>, populated: Option<seq<Option<string>>>)
      returns (writes: seq<Write>)
      requires Valid()
      requires populated.Some? ==> |populated.value| == 3
      modifies this
      ensures Valid() && Fixed() == old(Fixed())
      ensures fromBalance == old(fromBalance) && toBalance == old(toBalance)
      ensures loanId == old(loanId) && loanType == old(loanType) && toAgree == old(toAgree)
      ensures outcome.Rejected? ==>
        && transactionHashes == old(transactionHashes) + Harvest(outcome.receipt)
        && state == OnGoing && guarantorsAgree == old(guarantorsAgree)
        && writes == [UpdateRecord]
      ensures outcome.Confirmed? ==> transactionHashes == old(transactionHashes) + [outcome.hash]
      ensures outcome.Confirmed? && (loanId != Some(outcome.event.loanId) || populated.None?) ==>
        && state == OnGoing && guarantorsAgree == old(guarantorsAgree)
        && writes == [UpdateRecord]
      ensures outcome.Confirmed? && loanId == Some(outcome.event.loanId) && populated.Some? ==>
        var found := FindGuarantor(guarantors, populated.value, outcome.event.guarantor, 0);
        && (found.Found? ==>
              && guarantorsAgree == old(guarantorsAgree)[found.slot := Some(true)]
              && state == (if AllPresentAgreed(guarantors, guarantorsAgree) then Agreed else OnGoing)
              && writes == [UpdateRecord])
        && (!found.Found? ==>
              state == old(state) && guarantorsAgree == old(guarantorsAgree) && writes == [])
    {
      match outcome {
        case Confirmed(hash, event) =>
          transactionHashes := transactionHashes + [hash];
          if loanId != Some(event.loanId) || populated.None? {
            state := OnGoing;
            writes := [UpdateRecord];
            return;
          }
          var found := FindGuarantor(guarantors, populated.value, event.guarantor, 0);
          if !found.Found? {
            writes := [];
            return;
          }
          guarantorsAgree := guarantorsAgree[found.slot := Some(true)];
          if AllPresentAgreed(guarantors, guarantorsAgree) {
            state := Agreed;
          } else {
            state := OnGoing;
          }
          writes := [UpdateRecord];
        case Rejected(receipt) =>
          state := OnGoing;
          if receipt.Some? {
            transactionHashes := transactionHashes + [receipt.value];
          }
          writes := [UpdateRecord];
      }
    }

    /**
     * After the token approvals and then `KoraLend.fundLoan` (when `fund`)
     * or `KoraLend.payBackLoan` (when `payBack`).  `outcome` is what the
     * fund or payback submission returns; it is only submitted when every
     * approval was confirmed.  `stored` says whether the settlement entry
     * was created.
     *
     * With every approval confirmed and neither raw transaction given, the
     * service destructures `undefined`, which throws: nothing changes and
     * nothing is written.  Otherwise the record is updated from the outcome,
     * a settlement entry is created, and only after it the record is
     * destroyed (when its `fromBalance` is zero) or written back.
     */
    method SendRawLoanTransfer(approvals: Approvals, fund: bool, payBack: bool,
                               outcome: Submission<TransferEvent>, stored: bool)
      returns (writes: seq<Write>)
      requires Valid()
      modifies this
      ensures Valid() && Fixed() == old(Fixed())
      ensures loanId == old(loanId) && toAgree == old(toAgree) && guarantorsAgree == old(guarantorsAgree)
      ensures approvals.AllApproved? && !fund && !payBack ==>
        && writes == []
        && transactionHashes == old(transactionHashes) && state == old(state) && loanType == old(loanType)
        && fromBalance == old(fromBalance) && toBalance == old(toBalance)
      // the fund or payback transaction was confirmed
      ensures approvals.AllApproved? && (fund || payBack) && outcome.Confirmed? ==>
        var e := outcome.event;
        && transactionHashes == old(transactionHashes) + [outcome.hash]
        && state == OnGoing && loanType == old(loanType)
        && fromBalance == TokenValue(e.borrowerBalance) && toBalance == TokenValue(e.lenderBalance)
        && |writes| >= 1
        && writes[0] == CreateSettlement(Settlement(TxSuccess, additionalNote, loanId, Some(outcome.hash),
             SettlementTransfer(fund, payBack, from, to, fromAmount, toAmount,
                                TokenValue(e.borrowerValue), TokenValue(e.lenderValue))))
      // an approval or the fund or payback transaction failed
      ensures approvals.ApprovalFailed? || ((fund || payBack) && outcome.Rejected?) ==>
        var receipt := if approvals.ApprovalFailed? then approvals.receipt else outcome.receipt;
        && transactionHashes == old(transactionHashes) + Harvest(receipt)
        && state == (if fund then Agreed else if payBack then OnGoing else old(state))
        && loanType == (if fund then Loan else old(loanType))
        && fromBalance == old(fromBalance) && toBalance == old(toBalance)
        && |writes| >= 1
        && writes[0] == CreateSettlement(Settlement(TxError, additionalNote, loanId, LastHash(transactionHashes),
             SettlementTransfer(fund, payBack, from, to, fromAmount, toAmount, 0.0, 0.0)))
      // the entry is created first; then the record is destroyed or updated
      ensures writes != [] ==>
        writes[1..] == if !stored then [] else if fromBalance == 0.0 then [DestroyRecord] else [UpdateRecord]
    {
      var txState, fromValue, toValue := TxError, 0.0, 0.0;
      var failure: Option<Option<Hash>> := None;
      match approvals {
        case ApprovalFailed(receipt) =>
          failure := Some(receipt);
        case AllApproved =>
          if !fund && !payBack {
            writes := [];
            return;
          }
          match outcome {
            case Confirmed(hash, event) =>
              transactionHashes := transactionHashes + [hash];
              state := OnGoing;
              fromBalance := TokenValue(event.borrowerBalance);
              toBalance := TokenValue(event.lenderBalance);
              txState, fromValue, toValue :=
                TxSuccess, TokenValue(event.borrowerValue), TokenValue(event.lenderValue);
            case Rejected(receipt) =>
              failure := Some(receipt);
          }
      }
      if failure.Some? {
        if fund {
          state := Agreed;
          loanType := Loan;
        } else if payBack {
          state := OnGoing;
        }
        if failure.value.Some? {
          transactionHashes := transactionHashes + [failure.value.value];
        }
        txState, fromValue, toValue := TxError, 0.0, 0.0;
      }
      var entry := Settlement(txState, additionalNote, loanId, LastHash(transactionHashes), None);
      if fund {
        entry := entry.(transfer := Some(Transfer(BorrowFund, to, Some(from), toAmount, fromAmount)));
      }
      if payBack {
        entry := entry.(transfer := Some(Transfer(BorrowPayBack, Some(from), to, fromValue, toValue)));
      }
      writes := [CreateSettlement(entry)];
      if stored {
        if fromBalance == 0.0 {
          writes := writes + [DestroyRecord];
        } else {
          writes := writes + [UpdateRecord];
        }
      }
    }
  }

  /** Every operation only appends to the audit trail: the old hashes stay, in order. */
  twostate predicate HashesExtended(r: BorrowRecord)
    reads r
  {
    old(r.transactionHashes) <= r.transactionHashes
  }

  /**
   * A client of the three operations: whatever the ledger answers, the
   * audit trail is never shortened or reordered across a whole lifecycle.
   */
  method Lifecycle(r: BorrowRecord, created: Submission<CreateLoanEvent>,
                   agreed: Submission<AgreeEvent>, populated: Option<seq<Option<string>>>,
                   approvals: Approvals, fund: bool, payBack: bool,
                   transferred: Submission<TransferEvent>, stored: bool)
    requires r.Valid()
    requires populated.Some? ==> |populated.value| == 3
    modifies r
    ensures r.Valid() && HashesExtended(r)
    ensures |r.transactionHashes| <= |old(r.transactionHashes)| + 3
  {
    var w := r.SendRawCreateLoan(created);
    w := r.SendRawAgreeLoan(agreed, populated);
    w := r.SendRawLoanTransfer(approvals, fund, payBack, transferred, stored);
  }

  /**
   * The guarantor example: the first guarantor's address is stored in upper
   * case, the event reports it in lower case, the second guarantor has
   * already agreed; the match ignores case and the loan becomes agreed.
   */
  method GuarantorScenario() {
    var r := new BorrowRecord("b1", OnGoing, Loan, Some(42), "borrower", Some("lender"), None,
                              [Some("g1"), Some("g2"), None], [None, Some(true), None],
                              100.0, 100.0, 100.0, 0.0, "", ["0x01"]);
    var populated := Some([Some("0xAA"), Some("0xBB"), None]);
    assert ToLower("0xAA") == "0xaa" == ToLower("0xaa");
    assert FindGuarantor(r.guarantors, populated.value, "0xaa", 0) == Found(0);
    var w := r.SendRawAgreeLoan(Confirmed("0x02", AgreeEvent(42, "0xaa")), populated);
    assert r.guarantorsAgree == [Some(true), Some(true), None];
    assert r.state == Agreed && w == [UpdateRecord];
    assert r.transactionHashes == ["0x01", "0x02"];
  }

  /**
   * A payback that brings the borrower's balance to zero: one settlement
   * entry with the reported amounts, then the record is destroyed.
   */
  method PayBackScenario() {
    var r := new BorrowRecord("b2", OnGoing, Loan, Some(7), "borrower", Some("lender"), None,
                              [None, None, None], [None, None, None],
                              50.0, 50.0, 50.0, 0.0, "note", ["0x01"]);
    var w := r.SendRawLoanTransfer(AllApproved, false, true,
                                   Confirmed("0x09", TransferEvent(0, 5000, 5000, 5000)), true);
    assert r.fromBalance == 0.0 && r.toBalance == 50.0;
    assert w == [CreateSettlement(Settlement(TxSuccess, "note", Some(7), Some("0x09"),
                   Some(Transfer(BorrowPayBack, Some("borrower"), Some("lender"), 50.0, 50.0)))),
                 DestroyRecord];
  }

  /** A funding attempt rejected without a receipt: agreed loan, no new hash. */
  method FailedFundScenario() {
    var r := new BorrowRecord("b3", Agreed, Request, Some(3), "borrower", Some("lender"), None,
                              [None, None, None], [None, None, None],
                              20.0, 20.0, 20.0, 0.0, "", ["0x01"]);
    var w := r.SendRawLoanTransfer(AllApproved, true, false, Rejected(None), true);
    assert r.state == Agreed && r.loanType == Loan && r.transactionHashes == ["0x01"];
    assert w == [CreateSettlement(Settlement(TxError, "", Some(3), Some("0x01"),
                   Some(Transfer(BorrowFund, Some("lender"), Some("borrower"), 20.0, 20.0)))),
                 UpdateRecord];
  }
}
