/** Deposit attribution per target and charges per sponsor, kept above a protected vault floor. */
module RentLedger {
  import opened Common
  import opened RentOracle

  datatype Charges = Charges(paid: nat, refunded: nat)

  datatype Ledger = Ledger(deposits: map<Pubkey, nat>, sponsors: map<Pubkey, Charges>,
                           openings: map<Pubkey, u64>, floor: u64, surplus: u64)

  function DepositOf(l: Ledger, key: Pubkey): nat {
    if key in l.deposits then l.deposits[key] else 0
  }

  function ChargesOf(l: Ledger, key: Pubkey): Charges {
    if key in l.sponsors then l.sponsors[key] else Charges(0, 0)
  }

  /** Deposits and surplus are covered by what the vault holds above its floor. */
  ghost predicate Backed(l: Ledger, vault: u64) {
    l.floor <= vault && SumValues(l.deposits) + l.surplus <= vault - l.floor
  }

  /** One sponsor's balance is its opening balance, plus refunds, minus charges, with every
      intermediate value inside `u64`. Vault surplus came out of the payer. */
  predicate SponsorSettles(l: Ledger, keys: seq<Pubkey>, images: seq<Account>, key: Pubkey)
    requires |keys| == |images| == ROLES && key in l.sponsors
  {
    var surplus := if key == keys[PAYER] then l.surplus else 0;
    var c := l.sponsors[key];
    && key in keys
    && key in l.openings
    && l.openings[key] + c.refunded <= U64_MAX
    && images[Position(keys, key).value].lamports == l.openings[key] + c.refunded - c.paid - surplus
  }

  predicate SponsorsSettle(l: Ledger, keys: seq<Pubkey>, images: seq<Account>)
    requires |keys| == |images| == ROLES
  {
    forall key :: key in l.sponsors ==> SponsorSettles(l, keys, images, key)
  }

  /** The ledger after attributing one observed vault movement; `None` when a refund exceeds the
      deposit it would come from. */
  function Attribute(l: Ledger, target: Pubkey, sponsor: Pubkey, before: u64, after: u64): Option<Ledger> {
    if after == before then Some(l) else
    var deposit, c := DepositOf(l, target), ChargesOf(l, sponsor);
    if after > before then
      Some(l.(deposits := l.deposits[target := deposit + (after - before)],
              sponsors := l.sponsors[sponsor := c.(paid := c.paid + (after - before))]))
    else if before - after > deposit then None
    else
      Some(l.(deposits := l.deposits[target := deposit - (before - after)],
              sponsors := l.sponsors[sponsor := c.(refunded := c.refunded + (before - after))]))
  }

  /** The accepted result of `RentLedger::apply`; `None` stands for its errors. */
  ghost function Attributed(l: Ledger, keys: seq<Pubkey>, sponsor: Pubkey, before: seq<Account>, after: seq<Account>)
    : Option<Ledger>
    requires |keys| == |before| == |after| == ROLES
  {
    match Attribute(l, keys[TARGET], sponsor, before[VAULT].lamports, after[VAULT].lamports)
    case None => None
    case Some(next) =>
      if Backed(next, after[VAULT].lamports) && SponsorsSettle(next, keys, after) then Some(next) else None
  }

  /** A backed ledger's deposit never overflows when a further payment is credited to it. */
  lemma DepositsFit(l: Ledger, target: Pubkey, before: u64, after: u64)
    requires Backed(l, before) && before <= after
    ensures DepositOf(l, target) + (after - before) <= U64_MAX
  {
    if target in l.deposits {
      SumValuesSplit(l.deposits, target);
    }
  }

  /** Moving lamports through `Attribute` keeps the vault's unattributed remainder exactly. */
  lemma AttributeKeepsSlack(l: Ledger, target: Pubkey, sponsor: Pubkey, before: u64, after: u64)
    requires Attribute(l, target, sponsor, before, after).Some?
    ensures var next := Attribute(l, target, sponsor, before, after).value;
            after - SumValues(next.deposits) == before - SumValues(l.deposits)
  {
    var next := Attribute(l, target, sponsor, before, after).value;
    if after != before {
      SumValuesUpdate(l.deposits, target, next.deposits[target]);
      if target in l.deposits {
        SumValuesSplit(l.deposits, target);
      }
    }
  }

  /** The mutable ledger of the workload. */
  class RentLedger {
    var deposits: map<Pubkey, nat>
    var sponsors: map<Pubkey, Charges>
    var openings: map<Pubkey, u64>
    var floor: u64
    var surplus: u64

    function View(): Ledger
      reads this
    {
      Ledger(deposits, sponsors, openings, floor, surplus)
    }

    constructor (l: Ledger)
      ensures View() == l
    {
      deposits, sponsors, openings, floor, surplus := l.deposits, l.sponsors, l.openings, l.floor, l.surplus;
    }

    method Check(vault: u64) returns (ok: bool)
      ensures ok <==> Backed(View(), vault)
    {
      if vault < floor {
        return false;
      }
      var total, rest := 0, deposits;
      while rest != map[]
        invariant forall key :: key in rest ==> key in deposits && rest[key] == deposits[key]
        invariant total + SumValues(rest) == SumValues(deposits)
        decreases |rest|
      {
        var key :| key in rest;
        SumValuesSplit(rest, key);
        total := total + rest[key];
        rest := rest - {key};
      }
      ok := total + surplus <= vault - floor;
    }

    method CheckSponsors(keys: seq<Pubkey>, images: seq<Account>) returns (ok: bool)
      requires |keys| == |images| == ROLES
      ensures ok <==> SponsorsSettle(View(), keys, images)
    {
      var rest := sponsors.Keys;
      while rest != {}
        invariant rest <= sponsors.Keys
        invariant forall key :: key in sponsors && key !in rest ==> SponsorSettles(View(), keys, images, key)
        decreases |rest|
      {
        var key :| key in rest;
        var index := Position(keys, key);
        if index.None? || key !in openings {
          assert !SponsorSettles(View(), keys, images, key);
          return false;
        }
        var expected := openings[key] + sponsors[key].refunded;
        if expected > U64_MAX || expected < sponsors[key].paid {
          assert !SponsorSettles(View(), keys, images, key);
          return false;
        }
        expected := expected - sponsors[key].paid;
        var held := if key == keys[PAYER] then surplus else 0;
        if expected < held || images[index.value].lamports != expected - held {
          assert !SponsorSettles(View(), keys, images, key);
          return false;
        }
        rest := rest - {key};
      }
      ok := true;
    }

    /** Attributes one vault movement in place. When a refund exceeds its deposit, the default
        entries made for the lookup stay behind, as in the source. */
    method Move(target: Pubkey, sponsor: Pubkey, held: u64, left: u64) returns (ok: bool)
      modifies this
      ensures match Attribute(old(View()), target, sponsor, held, left)
        case Some(next) => ok && View() == next
        case None => !ok && View() == old(View()).(
          deposits := old(deposits)[target := DepositOf(old(View()), target)],
          sponsors := old(sponsors)[sponsor := ChargesOf(old(View()), sponsor)])
    {
      if left == held {
        return true;
      }
      var deposit := if target in deposits then deposits[target] else 0;
      var c := if sponsor in sponsors then sponsors[sponsor] else Charges(0, 0);
      if left >= held {
        deposits := deposits[target := deposit + (left - held)];
        sponsors := sponsors[sponsor := c.(paid := c.paid + (left - held))];
      } else {
        if held - left > deposit {
          deposits, sponsors := deposits[target := deposit], sponsors[sponsor := c];
          return false;
        }
        deposits := deposits[target := deposit - (held - left)];
        sponsors := sponsors[sponsor := c.(refunded := c.refunded + (held - left))];
      }
      ok := true;
    }

    /** `RentLedger::apply`: attribution first, then both reconciliations against the new images. */
    method Apply(keys: seq<Pubkey>, sponsor: Pubkey, before: seq<Account>, after: seq<Account>) returns (ok: bool)
      requires |keys| == |before| == |after| == ROLES
      modifies this
      ensures ok <==> Attributed(old(View()), keys, sponsor, before, after).Some?
      ensures ok ==> View() == Attributed(old(View()), keys, sponsor, before, after).value
      ensures match Attribute(old(View()), keys[TARGET], sponsor, before[VAULT].lamports, after[VAULT].lamports)
        case Some(next) => View() == next
        case None => true
    {
      ok := Move(keys[TARGET], sponsor, before[VAULT].lamports, after[VAULT].lamports);
      if ok {
        ok := Check(after[VAULT].lamports);
      }
      if ok {
        ok := CheckSponsors(keys, after);
      }
    }
  }
}
