/** The mock payment provider: idempotent intents, completion, refunds. */
module MockPayment {
  import opened Texts
  import opened BookingState

  /** An intent's reference and what has been refunded of it. */
  datatype Held = Held(state: IntentState, amount: Money, refunded: int, refunds: seq<Money>)

  datatype Vault = Vault(intents: map<Intent, Held>, byKey: map<Units, Intent>, counter: nat, failNext: bool)

  datatype Call =
    | CreateIntent(key: Units, amount: Money)
    | Cancel(intent: Intent)
    | Refund(intent: Intent, money: Money)
    | Complete(intent: Intent, succeeded: bool)
    | ArmFailure

  datatype Refusal = Unknown | Unavailable | Illegal | Invalid

  datatype Reply = Minted(intent: Intent) | Done | Refused(why: Refusal)

  datatype Result = Result(vault: Vault, reply: Reply)

  const EMPTY := Vault(map[], map[], 0, false)
  const UNDERSCORE: Unit := 95
  const PREFIX: Units := [109, 112, 105, UNDERSCORE]

  /** `hash` is the provider's opaque digest of a payment key. */
  type Digest = Units -> Units

  function IntentId(n: nat, digest: Units): Intent {
    PREFIX + (Numeral(n) + ([UNDERSCORE] + digest))
  }

  predicate Open(h: Held) {
    h.state.RequiresPayment? || h.state.Processing?
  }

  function Created(v: Vault, key: Units, amount: Money, hash: Digest): Result {
    if key in v.byKey then Result(v, Minted(v.byKey[key]))
    else if v.failNext then Result(v.(failNext := false), Refused(Unavailable))
    else
      var n := v.counter + 1;
      var id := IntentId(n, hash(key));
      Result(v.(intents := v.intents[id := Held(RequiresPayment, amount, 0, [])], byKey := v.byKey[key := id], counter := n),
             Minted(id))
  }

  function Returned(v: Vault, intent: Intent, money: Money): Result
    requires intent in v.intents
  {
    var h := v.intents[intent];
    if money.currency != h.amount.currency || money.amount <= 0 then Result(v, Refused(Invalid))
    else if !h.state.Succeeded? && !h.state.PartiallyRefunded? then Result(v, Refused(Illegal))
    else if h.refunded + money.amount > h.amount.amount then Result(v, Refused(Invalid))
    else
      var refunded := h.refunded + money.amount;
      var state := if refunded == h.amount.amount then IntentRefunded else PartiallyRefunded;
      Result(v.(intents := v.intents[intent := Held(state, h.amount, refunded, h.refunds + [money])]), Done)
  }

  function Closed(v: Vault, intent: Intent, to: IntentState): Result
    requires intent in v.intents
  {
    if !Open(v.intents[intent]) then Result(v, Refused(Illegal))
    else Result(v.(intents := v.intents[intent := v.intents[intent].(state := to)]), Done)
  }

  function Apply(v: Vault, c: Call, hash: Digest): Result {
    match c
    case CreateIntent(key, amount) => Created(v, key, amount, hash)
    case ArmFailure => Result(v.(failNext := true), Done)
    case Cancel(i) => if i !in v.intents then Result(v, Refused(Unknown)) else Closed(v, i, IntentFailed)
    case Complete(i, ok) =>
      if i !in v.intents then Result(v, Refused(Unknown)) else Closed(v, i, if ok then Succeeded else IntentFailed)
    case Refund(i, money) => if i !in v.intents then Result(v, Refused(Unknown)) else Returned(v, i, money)
  }

  class Provider {
    const hash: Digest
    var intents: map<Intent, Held>
    var byKey: map<Units, Intent>
    var counter: nat
    var failNext: bool

    function View(): Vault
      reads this
    {
      Vault(intents, byKey, counter, failNext)
    }

    constructor (hash: Digest)
      ensures this.hash == hash && View() == EMPTY
    {
      this.hash := hash;
      intents, byKey, counter, failNext := map[], map[], 0, false;
    }

    method Create(key: Units, amount: Money) returns (reply: Reply)
      modifies this
      ensures Result(View(), reply) == Created(old(View()), key, amount, hash)
    {
      if key in byKey { return Minted(byKey[key]); }
      if failNext {
        failNext := false;
        return Refused(Unavailable);
      }
      counter := counter + 1;
      var id := IntentId(counter, hash(key));
      intents := intents[id := Held(RequiresPayment, amount, 0, [])];
      byKey := byKey[key := id];
      return Minted(id);
    }

    method CompletePayment(intent: Intent, succeeded: bool) returns (reply: Reply)
      modifies this
      ensures Result(View(), reply) == Apply(old(View()), Complete(intent, succeeded), hash)
    {
      if intent !in intents { return Refused(Unknown); }
      if !Open(intents[intent]) { return Refused(Illegal); }
      intents := intents[intent := intents[intent].(state := if succeeded then Succeeded else IntentFailed)];
      return Done;
    }

    method CancelIntent(intent: Intent) returns (reply: Reply)
      modifies this
      ensures Result(View(), reply) == Apply(old(View()), Cancel(intent), hash)
    {
      if intent !in intents { return Refused(Unknown); }
      if !Open(intents[intent]) { return Refused(Illegal); }
      intents := intents[intent := intents[intent].(state := IntentFailed)];
      return Done;
    }

    method RefundIntent(intent: Intent, money: Money) returns (reply: Reply)
      modifies this
      ensures Result(View(), reply) == Apply(old(View()), Refund(intent, money), hash)
    {
      if intent !in intents { return Refused(Unknown); }
      var h := intents[intent];
      if money.currency != h.amount.currency { return Refused(Invalid); }
      if money.amount <= 0 { return Refused(Invalid); }
      if !h.state.Succeeded? && !h.state.PartiallyRefunded? { return Refused(Illegal); }
      if h.refunded + money.amount > h.amount.amount { return Refused(Invalid); }
      h := h.(refunded := h.refunded + money.amount);
      h := h.(state := if h.refunded == h.amount.amount then IntentRefunded else PartiallyRefunded);
      intents := intents[intent := h.(refunds := h.refunds + [money])];
      return Done;
    }

    method Arm()
      modifies this
      ensures View() == Apply(old(View()), ArmFailure, hash).vault
    {
      failNext := true;
    }
  }

  // --- runs ------------------------------------------------------------------------------------

  function After(calls: seq<Call>, hash: Digest): Vault {
    if calls == [] then EMPTY else Apply(After(calls[..|calls| - 1], hash), calls[|calls| - 1], hash).vault
  }

  /** What call `k` of a run is answered. */
  function ReplyTo(calls: seq<Call>, k: nat, hash: Digest): Reply
    requires k < |calls|
  {
    Apply(After(calls[..k], hash), calls[k], hash).reply
  }

  function TotalRefunded(refunds: seq<Money>): int {
    if refunds == [] then 0 else TotalRefunded(refunds[..|refunds| - 1]) + refunds[|refunds| - 1].amount
  }

  predicate RefundsOk(h: Held) {
    && h.refunded == TotalRefunded(h.refunds)
    && (forall m | m in h.refunds :: m.amount > 0 && m.currency == h.amount.currency)
    && (h.refunds != [] ==> 0 < h.refunded <= h.amount.amount)
    && (h.state.IntentRefunded? <==> h.refunds != [] && h.refunded == h.amount.amount)
    && (h.state.PartiallyRefunded? <==> h.refunds != [] && h.refunded < h.amount.amount)
  }

  ghost predicate Sound(v: Vault, hash: Digest) {
    && (forall k | k in v.byKey :: v.byKey[k] in v.intents)
    && (forall i | i in v.intents :: RefundsOk(v.intents[i]))
    && (forall k | k in v.byKey :: HandedOut(v, v.byKey[k], hash(k)))
    && (forall i | i in v.intents :: exists d :: HandedOut(v, i, d))
    && (forall k, l | k in v.byKey && l in v.byKey && v.byKey[k] == v.byKey[l] :: k == l)
  }

  /** The counter can be read back from an intent's identity, whatever the digest. */
  lemma IntentIdInjective(m: nat, d: Units, n: nat, e: Units)
    requires IntentId(m, d) == IntentId(n, e)
    ensures m == n
  {
    var u, w := Numeral(m) + ([UNDERSCORE] + d), Numeral(n) + ([UNDERSCORE] + e);
    assert IntentId(m, d)[4..] == u && IntentId(n, e)[4..] == w;
    assert u[|Numeral(m)|] == UNDERSCORE && w[|Numeral(n)|] == UNDERSCORE;
    DigitsFirst(Numeral(m), [UNDERSCORE] + d);
    DigitsFirst(Numeral(n), [UNDERSCORE] + e);
    assert |Numeral(m)| == |Numeral(n)|;
    assert u[..|Numeral(m)|] == Numeral(m) && w[..|Numeral(n)|] == Numeral(n);
    NumeralInjective(m, n);
  }

  lemma DigitsFirst(a: Units, b: Units)
    requires AllDigits(a)
    ensures forall i | 0 <= i < |a| :: (a + b)[i] != UNDERSCORE
  {
    forall i | 0 <= i < |a| ensures (a + b)[i] != UNDERSCORE { assert (a + b)[i] == a[i]; }
  }

  /** `i` is an identity this provider has handed out, for a key with digest `d`. */
  ghost predicate HandedOut(v: Vault, i: Intent, d: Units) {
    exists n: nat :: 0 < n <= v.counter && i == IntentId(n, d)
  }

  lemma HandedOutMore(v: Vault, r: Vault, i: Intent, d: Units)
    requires HandedOut(v, i, d) && v.counter <= r.counter
    ensures HandedOut(r, i, d)
  {
    hide IntentId;
    var n: nat :| 0 < n <= v.counter && i == IntentId(n, d);
    assert 0 < n <= r.counter;
  }

  /** The next identity is new. */
  lemma NextIsNew(v: Vault, hash: Digest, key: Units, i: Intent)
    requires Sound(v, hash) && i in v.intents
    ensures i != IntentId(v.counter + 1, hash(key))
  {
    hide RefundsOk;
    var d :| HandedOut(v, i, d);
    var n: nat :| 0 < n <= v.counter && i == IntentId(n, d);
    if i == IntentId(v.counter + 1, hash(key)) { IntentIdInjective(n, d, v.counter + 1, hash(key)); }
  }

  lemma ArmedSound(v: Vault, armed: bool, hash: Digest)
    requires Sound(v, hash)
    ensures Sound(v.(failNext := armed), hash)
  {
    hide IntentId; hide RefundsOk;
    var r := v.(failNext := armed);
    forall k, d | HandedOut(v, k, d) ensures HandedOut(r, k, d) { HandedOutMore(v, r, k, d); }
    hide HandedOut;
  }

  lemma NextHandedOut(r: Vault, d: Units)
    requires r.counter > 0
    ensures HandedOut(r, IntentId(r.counter, d), d)
  {
    hide IntentId;
  }

  lemma NewHeldOk(amount: Money)
    ensures RefundsOk(Held(RequiresPayment, amount, 0, []))
  {
  }

  lemma CreatedSound(v: Vault, key: Units, amount: Money, hash: Digest)
    requires Sound(v, hash)
    ensures Sound(Created(v, key, amount, hash).vault, hash)
  {
    hide IntentId; hide HandedOut; hide RefundsOk;
    ArmedSound(v, false, hash);
    if key !in v.byKey && !v.failNext {
      var r := Created(v, key, amount, hash).vault;
      var id := IntentId(v.counter + 1, hash(key));
      forall i | i in v.intents ensures i != id { NextIsNew(v, hash, key, i); }
      NextHandedOut(r, hash(key));
      NewHeldOk(amount);
      forall k | k in r.byKey ensures HandedOut(r, r.byKey[k], hash(k)) {
        if k != key { HandedOutMore(v, r, v.byKey[k], hash(k)); }
      }
      forall i | i in r.intents ensures exists d :: HandedOut(r, i, d) {
        if i != id {
          var d :| HandedOut(v, i, d);
          HandedOutMore(v, r, i, d);
        }
      }
    }
  }

  lemma UpdatedSound(v: Vault, i: Intent, h: Held, hash: Digest)
    requires Sound(v, hash) && i in v.intents && RefundsOk(h)
    ensures Sound(v.(intents := v.intents[i := h]), hash)
  {
    hide IntentId; hide RefundsOk;
    var r := v.(intents := v.intents[i := h]);
    forall k, d | HandedOut(v, k, d) ensures HandedOut(r, k, d) { HandedOutMore(v, r, k, d); }
    hide HandedOut;
  }

  lemma RefundedOk(h: Held, money: Money)
    requires RefundsOk(h) && (h.state.Succeeded? || h.state.PartiallyRefunded?)
    requires money.currency == h.amount.currency && money.amount > 0 && h.refunded + money.amount <= h.amount.amount
    ensures var refunded := h.refunded + money.amount;
            RefundsOk(Held(if refunded == h.amount.amount then IntentRefunded else PartiallyRefunded, h.amount, refunded,
                           h.refunds + [money]))
  {
    assert (h.refunds + [money])[..|h.refunds|] == h.refunds;
  }

  lemma ApplySound(v: Vault, c: Call, hash: Digest)
    requires Sound(v, hash)
    ensures Sound(Apply(v, c, hash).vault, hash)
  {
    match c
    case CreateIntent(key, amount) => CreatedSound(v, key, amount, hash);
    case ArmFailure => ArmedSound(v, true, hash);
    case Cancel(i) => ClosedSound(v, i, IntentFailed, hash);
    case Complete(i, ok) => ClosedSound(v, i, if ok then Succeeded else IntentFailed, hash);
    case Refund(i, money) => ReturnedSound(v, i, money, hash);
  }

  lemma ClosedSound(v: Vault, i: Intent, to: IntentState, hash: Digest)
    requires Sound(v, hash) && (to.Succeeded? || to.IntentFailed?)
    ensures i in v.intents ==> Sound(Closed(v, i, to).vault, hash)
  {
    if i in v.intents && Open(v.intents[i]) {
      assert RefundsOk(v.intents[i]);
      UpdatedSound(v, i, v.intents[i].(state := to), hash);
    }
  }

  lemma ReturnedSound(v: Vault, i: Intent, money: Money, hash: Digest)
    requires Sound(v, hash)
    ensures i in v.intents ==> Sound(Returned(v, i, money).vault, hash)
  {
    if i in v.intents {
      var r := Returned(v, i, money);
      var h := v.intents[i];
      assert RefundsOk(h);
      if r.reply.Done? {
        RefundedOk(h, money);
        hide Sound;
        UpdatedSound(v, i, r.vault.intents[i], hash);
      }
    }
  }

  lemma {:induction false} RunSound(calls: seq<Call>, hash: Digest)
    ensures Sound(After(calls, hash), hash)
  {
    if calls != [] {
      RunSound(calls[..|calls| - 1], hash);
      hide Sound;
      ApplySound(After(calls[..|calls| - 1], hash), calls[|calls| - 1], hash);
    }
  }

  /** Once a key has its intent, it keeps it. */
  lemma {:induction false} KeysKeepIntents(calls: seq<Call>, k: nat, key: Units, hash: Digest)
    requires k <= |calls| && key in After(calls[..k], hash).byKey
    ensures key in After(calls, hash).byKey && After(calls, hash).byKey[key] == After(calls[..k], hash).byKey[key]
    decreases |calls|
  {
    if k == |calls| {
      assert calls[..k] == calls;
    } else {
      assert calls[..|calls| - 1][..k] == calls[..k];
      KeysKeepIntents(calls[..|calls| - 1], k, key, hash);
    }
  }

  lemma CreatesUnderKey(v: Vault, c: Call, hash: Digest)
    requires c.CreateIntent? && Apply(v, c, hash).reply.Minted?
    ensures var r := Apply(v, c, hash); c.key in r.vault.byKey && r.vault.byKey[c.key] == r.reply.intent
  {
    hide IntentId;
  }

  lemma MintedStays(calls: seq<Call>, k: nat, hash: Digest)
    requires k < |calls| && calls[k].CreateIntent? && ReplyTo(calls, k, hash).Minted?
    ensures calls[k].key in After(calls, hash).byKey && After(calls, hash).byKey[calls[k].key] == ReplyTo(calls, k, hash).intent
  {
    hide Apply; hide Sound;
    assert calls[..k + 1][..k] == calls[..k];
    CreatesUnderKey(After(calls[..k], hash), calls[k], hash);
    KeysKeepIntents(calls, k + 1, calls[k].key, hash);
  }

  /** Two creations anywhere in a run are given the same intent exactly when they carry the same key. */
  lemma SameIntentIffSameKey(calls: seq<Call>, j: nat, k: nat, hash: Digest)
    requires j < |calls| && k < |calls| && calls[j].CreateIntent? && calls[k].CreateIntent?
    requires ReplyTo(calls, j, hash).Minted? && ReplyTo(calls, k, hash).Minted?
    ensures ReplyTo(calls, j, hash).intent == ReplyTo(calls, k, hash).intent <==> calls[j].key == calls[k].key
  {
    MintedStays(calls, j, hash);
    MintedStays(calls, k, hash);
    RunSound(calls, hash);
    hide After; hide ReplyTo;
  }

  /** Refunds never exceed what was captured, and an intent counts as refunded exactly when all of it is. */
  lemma RefundsBounded(calls: seq<Call>, hash: Digest, i: Intent)
    requires i in After(calls, hash).intents
    ensures var h := After(calls, hash).intents[i];
            && (h.refunds != [] ==> 0 < TotalRefunded(h.refunds) <= h.amount.amount)
            && (h.state.IntentRefunded? <==> h.refunds != [] && TotalRefunded(h.refunds) == h.amount.amount)
            && (h.state.PartiallyRefunded? <==> h.refunds != [] && TotalRefunded(h.refunds) < h.amount.amount)
  {
    RunSound(calls, hash);
    hide After;
    assert RefundsOk(After(calls, hash).intents[i]);
  }
}
