/** Payment intents, refunds and webhook events. The gateway's answers are parameters of each call. */
module Payments {
  import opened Sums

  type Id = nat

  /** Gateway ids and event ids share one space: an event id may stand in for an intent's. */
  type Key = string

  datatype Method = Card | GCash | Maya | BankTransfer | Unlisted

  datatype MethodType = AuthCapture | ImmediateCapture

  function MethodTypeOf(m: Method): MethodType {
    match m
    case GCash => ImmediateCapture
    case Maya => ImmediateCapture
    case BankTransfer => ImmediateCapture
    case _ => AuthCapture
  }

  datatype Status = Pending | Authorized | Captured | Voided | Refunded | Failed

  datatype Intent = Intent(
    booking: Id, key: Key, amount: nat, chosen: Method, methodType: MethodType, status: Status,
    gatewayStatus: Option<string>, capturedAt: Option<int>, voidedAt: Option<int>)

  datatype Reason = OwnerRejected | OwnerCancelled | CustomerCancelled | SystemTimeout | Dispute

  datatype Refund = Refund(intent: Id, booking: Id, key: Key, amount: nat, reason: Reason)

  datatype Event = Event(id: Key, isPaid: bool, attributesId: Key)

  /** The tables, and the intents for which the gateway's Void was ever called. */
  datatype Ledger = Ledger(
    intents: seq<Intent>, refunds: seq<Refund>, processed: set<Key>, voidCalls: set<Id>, now: int)
  {
    predicate Empty() { intents == [] && refunds == [] && processed == {} && voidCalls == {} }
  }

  datatype Error = PaymentNotFound | Duplicate | GatewayFailed | ConstraintViolation

  datatype Outcome = Ok | Err(error: Error)

  // ----- lookups

  function HasKey(key: Key): Intent -> bool { (p: Intent) => p.key == key }

  function ForBooking(booking: Id): Intent -> bool { (p: Intent) => p.booking == booking }

  function FindKey(intents: seq<Intent>, key: Key): Option<Id> { First(intents, HasKey(key)) }

  function FindBooking(intents: seq<Intent>, booking: Id): Option<Id> { First(intents, ForBooking(booking)) }

  // ----- the calls

  datatype Op =
    | CreateIntent(booking: Id, key: Option<Key>, amount: nat, chosen: Method)
    | Webhook(event: Event)
    | Capture(booking: Id, gatewayOk: bool)
    | Void(booking: Id, gatewayOk: bool, refundKey: Option<Key>)
    | RefundPayment(booking: Id, reason: Reason, refundKey: Option<Key>)
    | Tick(seconds: nat)

  /** SET status, and each timestamp and the gateway status only where a new one is given. */
  function Updated(p: Intent, status: Status, capturedAt: Option<int>, voidedAt: Option<int>, gatewayStatus: string): Intent {
    p.(status := status,
       capturedAt := if capturedAt.Some? then capturedAt else p.capturedAt,
       voidedAt := if voidedAt.Some? then voidedAt else p.voidedAt,
       gatewayStatus := Some(gatewayStatus))
  }

  function NewIntent(s: Ledger, booking: Id, key: Key, amount: nat, chosen: Method): Intent {
    if MethodTypeOf(chosen) == ImmediateCapture
    then Intent(booking, key, amount, chosen, ImmediateCapture, Captured, None, Some(s.now), None)
    else Intent(booking, key, amount, chosen, AuthCapture, Authorized, None, None, None)
  }

  function Refunding(s: Ledger, booking: Id, reason: Reason, refundKey: Option<Key>): (Outcome, Ledger) {
    match FindBooking(s.intents, booking)
    case None => (Err(PaymentNotFound), s)
    case Some(i) =>
      if refundKey == None then (Err(GatewayFailed), s)
      else if exists r :: 0 <= r < |s.refunds| && s.refunds[r].key == refundKey.value then (Err(ConstraintViolation), s)
      else
        (Ok, s.(refunds := s.refunds + [Refund(i, booking, refundKey.value, s.intents[i].amount, reason)],
                intents := s.intents[i := Updated(s.intents[i], Refunded, None, None, "refunded")]))
  }

  /** The intent a payment event names: its payload's id, or its own id where the payload has none. */
  function Target(e: Event): Key { if e.attributesId != "" then e.attributesId else e.id }

  /** The event is marked before it is handled, so a failing handler is not retried. */
  function Handle(s: Ledger, e: Event): (Outcome, Ledger) {
    if e.id in s.processed then (Err(Duplicate), s)
    else
      var marked := s.(processed := s.processed + {e.id});
      if !e.isPaid then (Ok, marked)
      else
        match FindKey(s.intents, Target(e))
        case None => (Err(PaymentNotFound), marked)
        case Some(i) =>
          (Ok, marked.(intents := s.intents[i := Updated(s.intents[i], Captured, Some(s.now), None, "paid")]))
  }

  function Perform(s: Ledger, op: Op): (Outcome, Ledger) {
    match op
    case CreateIntent(booking, key, amount, chosen) =>
      if key == None then (Err(GatewayFailed), s)
      else if FindKey(s.intents, key.value).Some? || chosen == Unlisted then (Err(ConstraintViolation), s)
      else (Ok, s.(intents := s.intents + [NewIntent(s, booking, key.value, amount, chosen)]))
    case Webhook(e) => Handle(s, e)
    case Capture(booking, gatewayOk) =>
      (match FindBooking(s.intents, booking)
       case None => (Err(PaymentNotFound), s)
       case Some(i) =>
         if s.intents[i].methodType == ImmediateCapture then (Ok, s)
         else if !gatewayOk then (Err(GatewayFailed), s)
         else (Ok, s.(intents := s.intents[i := Updated(s.intents[i], Captured, Some(s.now), None, "captured")])))
    case Void(booking, gatewayOk, refundKey) =>
      (match FindBooking(s.intents, booking)
       case None => (Err(PaymentNotFound), s)
       case Some(i) =>
         if s.intents[i].methodType == ImmediateCapture then Refunding(s, booking, SystemTimeout, refundKey)
         else
           var called := s.(voidCalls := s.voidCalls + {i});
           if !gatewayOk then (Err(GatewayFailed), called)
           else (Ok, called.(intents := s.intents[i := Updated(s.intents[i], Voided, None, Some(s.now), "voided")])))
    case RefundPayment(booking, reason, refundKey) => Refunding(s, booking, reason, refundKey)
    case Tick(seconds) => (Ok, s.(now := s.now + seconds))
  }

  function Run(s: Ledger, ops: seq<Op>): Ledger {
    if |ops| == 0 then s else Perform(Run(s, ops[..|ops| - 1]), ops[|ops| - 1]).1
  }

  // ----- invariants

  predicate HasRefund(s: Ledger, i: Id) {
    exists r :: 0 <= r < |s.refunds| && s.refunds[r].intent == i
  }

  predicate IntentSound(s: Ledger, i: Id)
    requires i < |s.intents|
  {
    var p := s.intents[i];
    && p.chosen != Unlisted
    && (p.methodType == ImmediateCapture <==> p.chosen == GCash || p.chosen == Maya || p.chosen == BankTransfer)
    && (p.methodType == ImmediateCapture ==>
          (p.status == Captured || p.status == Refunded) && p.capturedAt.Some? && p.voidedAt == None && i !in s.voidCalls)
    && (p.status == Captured ==> p.capturedAt.Some?)
    && (p.status == Voided ==> p.voidedAt.Some?)
    && (p.status == Refunded ==> HasRefund(s, i))
  }

  ghost predicate Sound(s: Ledger) {
    && (forall i: Id :: i < |s.intents| ==> IntentSound(s, i))
    && (forall r: Id :: r < |s.refunds| ==>
          s.refunds[r].intent < |s.intents| && s.refunds[r].amount == s.intents[s.refunds[r].intent].amount)
    && (forall i: Id :: i in s.voidCalls ==> i < |s.intents|)
    && (forall i: Id, j: Id :: i < j < |s.intents| ==> s.intents[i].key != s.intents[j].key)
    && (forall q: Id, r: Id :: q < r < |s.refunds| ==> s.refunds[q].key != s.refunds[r].key)
  }

  /** Nothing recorded is lost: rows stay, identifying columns stay, a timestamp once set stays set. */
  ghost predicate Grows(s: Ledger, s': Ledger) {
    && |s.intents| <= |s'.intents| && s.refunds <= s'.refunds && s.processed <= s'.processed
    && (forall i: Id :: i < |s.intents| ==>
          && s'.intents[i].key == s.intents[i].key && s'.intents[i].booking == s.intents[i].booking
          && s'.intents[i].amount == s.intents[i].amount && s'.intents[i].chosen == s.intents[i].chosen
          && s'.intents[i].methodType == s.intents[i].methodType
          && (s.intents[i].capturedAt.Some? ==> s'.intents[i].capturedAt.Some?)
          && (s.intents[i].voidedAt.Some? ==> s'.intents[i].voidedAt.Some?))
  }

  /** Replacing one intent by a sound one keeps the ledger sound. */
  lemma ReplaceSound(s: Ledger, i: Id, p: Intent)
    requires Sound(s) && i < |s.intents|
    requires p.key == s.intents[i].key && p.amount == s.intents[i].amount
    requires IntentSound(s.(intents := s.intents[i := p]), i)
    ensures Sound(s.(intents := s.intents[i := p]))
  {
    var s' := s.(intents := s.intents[i := p]);
    forall j: Id | j < |s'.intents|
      ensures IntentSound(s', j)
    {
      assert IntentSound(s, j);
      assert HasRefund(s, j) ==> HasRefund(s', j);
    }
  }

  lemma CreateSound(s: Ledger, p: Intent)
    requires Sound(s) && FindKey(s.intents, p.key) == None && IntentSound(s.(intents := s.intents + [p]), |s.intents|)
    ensures Sound(s.(intents := s.intents + [p]))
  {
    var s' := s.(intents := s.intents + [p]);
    forall j: Id | j < |s.intents|
      ensures IntentSound(s', j)
    {
      assert IntentSound(s, j);
      assert HasRefund(s, j) ==> HasRefund(s', j);
    }
  }

  lemma RefundSound(s: Ledger, booking: Id, reason: Reason, refundKey: Option<Key>)
    requires Sound(s)
    ensures Sound(Refunding(s, booking, reason, refundKey).1)
  {
    if Refunding(s, booking, reason, refundKey).0 == Ok {
      var i := FindBooking(s.intents, booking).value;
      var s1 := s.(refunds := s.refunds + [Refund(i, booking, refundKey.value, s.intents[i].amount, reason)]);
      assert s1.refunds[|s.refunds|].intent == i;
      forall j: Id | j < |s1.intents|
        ensures IntentSound(s1, j)
      {
        assert IntentSound(s, j);
        if HasRefund(s, j) {
          var r :| 0 <= r < |s.refunds| && s.refunds[r].intent == j;
          assert s1.refunds[r].intent == j;
        }
      }
      var p := Updated(s.intents[i], Refunded, None, None, "refunded");
      var s2 := s1.(intents := s1.intents[i := p]);
      assert IntentSound(s1, i) && s2.refunds == s1.refunds;
      assert HasRefund(s2, i);
      ReplaceSound(s1, i, p);
    }
  }

  lemma MarkSound(s: Ledger, processed: set<Key>, now: int, voidCalls: set<Id>)
    requires Sound(s)
    requires forall i: Id :: i in voidCalls && i !in s.voidCalls ==> i < |s.intents| && s.intents[i].methodType == AuthCapture
    ensures Sound(s.(processed := processed, now := now, voidCalls := voidCalls))
  {
    var s' := s.(processed := processed, now := now, voidCalls := voidCalls);
    forall j: Id | j < |s'.intents|
      ensures IntentSound(s', j)
    {
      assert IntentSound(s, j);
      assert HasRefund(s, j) ==> HasRefund(s', j);
    }
    assert forall i: Id :: i in voidCalls ==> i < |s.intents|;
  }

  lemma WebhookSound(s: Ledger, e: Event)
    requires Sound(s)
    ensures Sound(Handle(s, e).1)
  {
    MarkSound(s, s.processed + {e.id}, s.now, s.voidCalls);
    var i := FindKey(s.intents, Target(e));
    if e.id !in s.processed && e.isPaid && i.Some? {
      assert IntentSound(s, i.value);
      ReplaceSound(s.(processed := s.processed + {e.id}), i.value,
                   Updated(s.intents[i.value], Captured, Some(s.now), None, "paid"));
    }
  }

  lemma CaptureSound(s: Ledger, booking: Id, gatewayOk: bool)
    requires Sound(s)
    ensures Sound(Perform(s, Capture(booking, gatewayOk)).1)
  {
    var i := FindBooking(s.intents, booking);
    if i.Some? && s.intents[i.value].methodType == AuthCapture {
      assert IntentSound(s, i.value);
      ReplaceSound(s, i.value, Updated(s.intents[i.value], Captured, Some(s.now), None, "captured"));
    }
  }

  lemma VoidSound(s: Ledger, booking: Id, gatewayOk: bool, refundKey: Option<Key>)
    requires Sound(s)
    ensures Sound(Perform(s, Void(booking, gatewayOk, refundKey)).1)
  {
    RefundSound(s, booking, SystemTimeout, refundKey);
    var i := FindBooking(s.intents, booking);
    if i.Some? && s.intents[i.value].methodType == AuthCapture {
      assert IntentSound(s, i.value);
      MarkSound(s, s.processed, s.now, s.voidCalls + {i.value});
      ReplaceSound(s.(voidCalls := s.voidCalls + {i.value}), i.value,
                   Updated(s.intents[i.value], Voided, None, Some(s.now), "voided"));
    }
  }

  lemma PerformSound(s: Ledger, op: Op)
    requires Sound(s)
    ensures Sound(Perform(s, op).1)
  {
    match op {
      case CreateIntent(booking, key, amount, chosen) =>
        if Perform(s, op).0 == Ok {
          CreateSound(s, NewIntent(s, booking, key.value, amount, chosen));
        }
      case Webhook(e) => WebhookSound(s, e);
      case Capture(booking, gatewayOk) => CaptureSound(s, booking, gatewayOk);
      case Void(booking, gatewayOk, refundKey) => VoidSound(s, booking, gatewayOk, refundKey);
      case RefundPayment(booking, reason, refundKey) => RefundSound(s, booking, reason, refundKey);
      case Tick(seconds) => MarkSound(s, s.processed, s.now + seconds, s.voidCalls);
    }
  }

  lemma RefundingGrows(s: Ledger, booking: Id, reason: Reason, refundKey: Option<Key>)
    ensures Grows(s, Refunding(s, booking, reason, refundKey).1)
  {
  }

  lemma HandleGrows(s: Ledger, e: Event)
    ensures Grows(s, Handle(s, e).1)
  {
  }

  lemma PerformGrows(s: Ledger, op: Op)
    ensures Grows(s, Perform(s, op).1)
  {
    hide Refunding, Handle;
    match op {
      case Webhook(e) => HandleGrows(s, e);
      case Void(booking, _, refundKey) => RefundingGrows(s, booking, SystemTimeout, refundKey);
      case RefundPayment(booking, reason, refundKey) => RefundingGrows(s, booking, reason, refundKey);
      case _ =>
    }
  }

  lemma {:induction false} RunGrows(s: Ledger, ops: seq<Op>)
    ensures Grows(s, Run(s, ops))
  {
    if |ops| > 0 {
      RunGrows(s, ops[..|ops| - 1]);
      PerformGrows(Run(s, ops[..|ops| - 1]), ops[|ops| - 1]);
    }
  }

  lemma {:induction false} RunSound(s: Ledger, ops: seq<Op>)
    requires s.Empty()
    ensures Sound(Run(s, ops))
  {
    if |ops| > 0 {
      RunSound(s, ops[..|ops| - 1]);
      PerformSound(Run(s, ops[..|ops| - 1]), ops[|ops| - 1]);
    }
  }

  lemma SoundIntent(r: Ledger, i: Id)
    requires Sound(r) && i < |r.intents|
    ensures var p := r.intents[i];
      && (p.chosen == Card || p.chosen == GCash || p.chosen == Maya || p.chosen == BankTransfer)
      && (if p.chosen == Card then p.methodType == AuthCapture
          else p.methodType == ImmediateCapture && (p.status == Captured || p.status == Refunded)
               && p.capturedAt.Some? && p.voidedAt == None && i !in r.voidCalls)
      && (p.status == Captured ==> p.capturedAt.Some?) && (p.status == Voided ==> p.voidedAt.Some?)
      && (p.status == Refunded ==> exists q: Id :: q < |r.refunds| && r.refunds[q].intent == i)
  {
    assert IntentSound(r, i);
    if r.intents[i].status == Refunded {
      var q :| 0 <= q < |r.refunds| && r.refunds[q].intent == i;
    }
  }

  /** In every run: a GCash, Maya or bank transfer payment is an immediate capture, only ever captured or refunded, keeps
      its capture time, is never voided and never reaches the gateway's Void; every other intent is a card's
      authorization. A voided intent has its time, a refunded one its full refund row. */
  lemma PaymentsStaySound(s: Ledger, ops: seq<Op>)
    requires s.Empty()
    ensures var r := Run(s, ops);
      && Sound(r)
      && (forall i: Id :: i < |r.intents| ==>
            var p := r.intents[i];
            && (p.chosen == Card || p.chosen == GCash || p.chosen == Maya || p.chosen == BankTransfer)
            && (if p.chosen == Card then p.methodType == AuthCapture
                else p.methodType == ImmediateCapture && (p.status == Captured || p.status == Refunded)
                     && p.capturedAt.Some? && p.voidedAt == None && i !in r.voidCalls)
            && (p.status == Captured ==> p.capturedAt.Some?) && (p.status == Voided ==> p.voidedAt.Some?)
            && (p.status == Refunded ==> exists q: Id :: q < |r.refunds| && r.refunds[q].intent == i))
      && (forall q: Id :: q < |r.refunds| ==>
            r.refunds[q].intent < |r.intents| && r.refunds[q].amount == r.intents[r.refunds[q].intent].amount)
  {
    RunSound(s, ops);
    var r := Run(s, ops);
    hide Run;
    forall i: Id | i < |r.intents| { SoundIntent(r, i); }
  }

  // ----- what each call leaves

  /** The stored intent is the one ordered: a card's only authorized, any other captured at once; and no later call
      changes its booking, key, amount or method. */
  lemma IntentIsAsOrdered(s: Ledger, booking: Id, key: Option<Key>, amount: nat, chosen: Method, later: seq<Op>)
    ensures var create := CreateIntent(booking, key, amount, chosen);
      var (o, s') := Perform(s, create);
      var n := |s.intents|;
      && (o == Ok <==> key.Some? && chosen != Unlisted && forall i: Id :: i < n ==> s.intents[i].key != key.value)
      && (o != Ok ==> s' == s)
      && (o == Ok ==>
            && s' == s.(intents := s.intents + [
                 if chosen == Card
                 then Intent(booking, key.value, amount, Card, AuthCapture, Authorized, None, None, None)
                 else Intent(booking, key.value, amount, chosen, ImmediateCapture, Captured, None, Some(s.now), None)])
            && n < |Run(s', later).intents|
            && var p := Run(s', later).intents[n];
               p.booking == booking && p.key == key.value && p.amount == amount && p.chosen == chosen)
  {
    RunGrows(Perform(s, CreateIntent(booking, key, amount, chosen)).1, later);
    if key.Some? {
      assert forall i: Id :: i < |s.intents| ==> (HasKey(key.value)(s.intents[i]) <==> s.intents[i].key == key.value);
    }
  }

  /** A payment event not processed before names the key. */
  predicate Pays(e: Event, processed: set<Key>, key: Key) {
    e.isPaid && e.id !in processed && key == if e.attributesId != "" then e.attributesId else e.id
  }

  /** The first intent of a booking. */
  predicate FirstFor(s: Ledger, booking: Id, i: Id) {
    && i < |s.intents| && s.intents[i].booking == booking
    && forall j :: 0 <= j < i ==> s.intents[j].booking != booking
  }

  lemma FirstIsFound(s: Ledger, booking: Id, i: Id)
    requires FirstFor(s, booking, i)
    ensures FindBooking(s.intents, booking) == Some(i)
  {
    assert ForBooking(booking)(s.intents[i]);
  }

  /** Capturing settles a card's authorization at the gateway's word, and does nothing to a payment captured at once. */
  lemma CaptureSettles(s: Ledger, booking: Id, gatewayOk: bool, i: Id)
    requires Sound(s) && FirstFor(s, booking, i)
    ensures var p := s.intents[i];
      Perform(s, Capture(booking, gatewayOk))
      == if p.chosen != Card then (Ok, s)
         else if !gatewayOk then (Err(GatewayFailed), s)
         else (Ok, s.(intents := s.intents[i := p.(status := Captured, capturedAt := Some(s.now),
                                                   gatewayStatus := Some("captured"))]))
  {
    FirstIsFound(s, booking, i);
    assert IntentSound(s, i);
  }

  /** A booking without an intent settles nothing. */
  lemma NothingToSettle(s: Ledger, booking: Id, gatewayOk: bool, reason: Reason, refundKey: Option<Key>)
    requires forall i: Id :: i < |s.intents| ==> s.intents[i].booking != booking
    ensures Perform(s, Capture(booking, gatewayOk)) == (Err(PaymentNotFound), s)
    ensures Perform(s, Void(booking, gatewayOk, refundKey)) == (Err(PaymentNotFound), s)
    ensures Perform(s, RefundPayment(booking, reason, refundKey)) == (Err(PaymentNotFound), s)
  {
    assert forall i: Id :: i < |s.intents| ==> (ForBooking(booking)(s.intents[i]) <==> s.intents[i].booking == booking);
  }

  predicate FreshRefund(s: Ledger, key: Key) { forall r: Id :: r < |s.refunds| ==> s.refunds[r].key != key }

  /** A refund that goes through records the whole amount for the booking, with its reason, and marks the intent. */
  lemma RefundSettles(s: Ledger, booking: Id, reason: Reason, refundKey: Option<Key>, i: Id)
    requires FirstFor(s, booking, i)
    ensures var p := s.intents[i];
      Perform(s, RefundPayment(booking, reason, refundKey))
      == if refundKey == None then (Err(GatewayFailed), s)
         else if !FreshRefund(s, refundKey.value) then (Err(ConstraintViolation), s)
         else (Ok, s.(refunds := s.refunds + [Refund(i, booking, refundKey.value, p.amount, reason)],
                      intents := s.intents[i := p.(status := Refunded, gatewayStatus := Some("refunded"))]))
  {
    FirstIsFound(s, booking, i);
    if refundKey.Some? && !FreshRefund(s, refundKey.value) {
      var r: Id :| r < |s.refunds| && s.refunds[r].key == refundKey.value;
    }
  }

  /** Voiding releases a card's authorization at the gateway's word and refunds a payment captured at once. */
  lemma VoidSettles(s: Ledger, booking: Id, gatewayOk: bool, refundKey: Option<Key>, i: Id)
    requires Sound(s) && FirstFor(s, booking, i)
    ensures var p := s.intents[i];
      var called := s.(voidCalls := s.voidCalls + {i});
      Perform(s, Void(booking, gatewayOk, refundKey))
      == if p.chosen != Card then Perform(s, RefundPayment(booking, SystemTimeout, refundKey))
         else if !gatewayOk then (Err(GatewayFailed), called)
         else (Ok, called.(intents := s.intents[i := p.(status := Voided, voidedAt := Some(s.now),
                                                        gatewayStatus := Some("voided"))]))
  {
    FirstIsFound(s, booking, i);
    assert IntentSound(s, i);
  }

  /** The intent a paid event names, by its payload or, failing that, its own id, is captured as of now; an event seen
      before or of another type changes no intent, and every new event is marked. */
  lemma WebhookSettles(s: Ledger, e: Event, i: Id)
    requires Sound(s) && i < |s.intents|
    ensures var s' := Perform(s, Webhook(e)).1;
      var p := s.intents[i];
      && Perform(s, Webhook(e)).0
         == (if e.id in s.processed then Err(Duplicate)
             else if e.isPaid && !exists j: Id :: j < |s.intents| && Pays(e, s.processed, s.intents[j].key)
             then Err(PaymentNotFound) else Ok)
      && s'.processed == s.processed + {e.id} && |s'.intents| == |s.intents| && s'.refunds == s.refunds
      && s'.intents[i] == if Pays(e, s.processed, p.key)
                          then p.(status := Captured, capturedAt := Some(s.now), gatewayStatus := Some("paid")) else p
  {
    if e.id in s.processed {
      assert s.processed + {e.id} == s.processed;
    }
    var found := FindKey(s.intents, Target(e));
    assert forall j: Id :: j < |s.intents| ==> (HasKey(Target(e))(s.intents[j]) <==> s.intents[j].key == Target(e));
    if e.id !in s.processed && e.isPaid && found.Some? {
      assert Pays(e, s.processed, s.intents[found.value].key);
    }
    if found.Some? && found.value != i {
      assert HasKey(Target(e))(s.intents[found.value]);
      assert s.intents[found.value].key != s.intents[i].key;
    }
  }

  // ----- one refund per intent

  ghost predicate RefundedOnce(s: Ledger) {
    forall q: Id, r: Id :: q < r < |s.refunds| ==> s.refunds[q].intent != s.refunds[r].intent
  }

  /** A refund of the booking would go through on an intent that already has one. */
  predicate RefundsTwice(s: Ledger, booking: Id, refundKey: Option<Key>) {
    && FindBooking(s.intents, booking).Some? && HasRefund(s, FindBooking(s.intents, booking).value)
    && refundKey.Some? && !exists r :: 0 <= r < |s.refunds| && s.refunds[r].key == refundKey.value
  }

  /** The call refunds again: directly, or by voiding an immediate capture. */
  predicate RefundsAgain(s: Ledger, op: Op) {
    match op
    case RefundPayment(booking, _, refundKey) => RefundsTwice(s, booking, refundKey)
    case Void(booking, _, refundKey) =>
      RefundsTwice(s, booking, refundKey)
      && s.intents[FindBooking(s.intents, booking).value].methodType == ImmediateCapture
    case _ => false
  }

  lemma RefundingOnceExactly(s: Ledger, booking: Id, reason: Reason, refundKey: Option<Key>)
    requires RefundedOnce(s)
    ensures RefundedOnce(Refunding(s, booking, reason, refundKey).1) <==> !RefundsTwice(s, booking, refundKey)
  {
    var s' := Refunding(s, booking, reason, refundKey).1;
    if RefundsTwice(s, booking, refundKey) {
      var r :| 0 <= r < |s.refunds| && s.refunds[r].intent == FindBooking(s.intents, booking).value;
      assert s'.refunds[r].intent == s'.refunds[|s.refunds|].intent;
    }
  }

  /** One call keeps at most one refund row per intent exactly when it does not refund again. */
  lemma StepRefundsOnceExactly(s: Ledger, op: Op)
    requires RefundedOnce(s)
    ensures RefundedOnce(Perform(s, op).1) <==> !RefundsAgain(s, op)
  {
    match op {
      case RefundPayment(booking, reason, refundKey) => RefundingOnceExactly(s, booking, reason, refundKey);
      case Void(booking, _, refundKey) => RefundingOnceExactly(s, booking, SystemTimeout, refundKey);
      case _ =>
    }
  }

  lemma RefundsStay(s: Ledger, s': Ledger)
    requires Grows(s, s')
    ensures RefundedOnce(s') ==> RefundedOnce(s)
  {
  }

  ghost predicate NeverRefundsAgain(s: Ledger, ops: seq<Op>) {
    forall k :: 0 <= k < |ops| ==> !RefundsAgain(Run(s, ops[..k]), ops[k])
  }

  lemma NeverSplits(s: Ledger, before: seq<Op>, last: Op)
    ensures NeverRefundsAgain(s, before + [last])
       <==> NeverRefundsAgain(s, before) && !RefundsAgain(Run(s, before), last)
  {
    hide Run, RefundsAgain;
    var ops := before + [last];
    assert ops[..|before|] == before && ops[|before|] == last;
    assert forall k :: 0 <= k < |before| ==> ops[..k] == before[..k] && ops[k] == before[k];
  }

  /** A run leaves at most one refund row per intent exactly when no call of it refunds again. */
  lemma {:induction false} RefundedOnceExactly(s: Ledger, ops: seq<Op>)
    requires s.Empty()
    ensures RefundedOnce(Run(s, ops)) <==> NeverRefundsAgain(s, ops)
  {
    hide Perform, RefundsAgain, Grows;
    if |ops| > 0 {
      hide RefundedOnce, NeverRefundsAgain;
      var before, last := ops[..|ops| - 1], ops[|ops| - 1];
      RefundedOnceExactly(s, before);
      PerformGrows(Run(s, before), last);
      RefundsStay(Run(s, before), Run(s, ops));
      if RefundedOnce(Run(s, before)) {
        StepRefundsOnceExactly(Run(s, before), last);
      }
      NeverSplits(s, before, last);
      assert before + [last] == ops;
    }
  }

  lemma RunAppend(s: Ledger, ops: seq<Op>, op: Op)
    ensures Run(s, ops + [op]) == Perform(Run(s, ops), op).1
  {
    assert (ops + [op])[..|ops|] == ops;
  }

  lemma LoneRefund(s: Ledger, reason: Reason, key: Key)
    requires |s.intents| == 1 && forall r :: 0 <= r < |s.refunds| ==> s.refunds[r].key != key
    ensures var p := s.intents[0];
      var after := Perform(s, RefundPayment(p.booking, reason, Some(key))).1;
      && |after.intents| == 1 && after.intents[0].booking == p.booking && after.intents[0].amount == p.amount
      && after.refunds == s.refunds + [Refund(0, p.booking, key, p.amount, reason)]
  {
    assert ForBooking(s.intents[0].booking)(s.intents[0]);
  }

  /** And some run does: a captured payment refunded under two refund keys. */
  lemma TwoRefunds(s: Ledger, booking: Id, key: Key, amount: nat, reason: Reason, one: Key, other: Key)
    requires s.Empty() && one != other
    ensures var ops := [CreateIntent(booking, Some(key), amount, GCash)] + [RefundPayment(booking, reason, Some(one))]
                       + [RefundPayment(booking, reason, Some(other))];
      Run(s, ops).refunds == [Refund(0, booking, one, amount, reason), Refund(0, booking, other, amount, reason)]
  {
    var create := CreateIntent(booking, Some(key), amount, GCash);
    var first, second := RefundPayment(booking, reason, Some(one)), RefundPayment(booking, reason, Some(other));
    assert [] + [create] == [create];
    RunAppend(s, [], create);
    assert Run(s, [create]).intents == [NewIntent(s, booking, key, amount, GCash)];
    RunAppend(s, [create], first);
    RunAppend(s, [create] + [first], second);
    hide Perform, Run;
    LoneRefund(Run(s, [create]), reason, one);
    LoneRefund(Run(s, [create] + [first]), reason, other);
  }

  // ----- webhook folding

  /** An event and the time at which it arrives. */
  datatype Arrival = Arrival(event: Event, at: int)

  function Fold(s: Ledger, arrivals: seq<Arrival>): Ledger {
    if |arrivals| == 0 then s
    else
      var last := arrivals[|arrivals| - 1];
      Handle(Fold(s, arrivals[..|arrivals| - 1]).(now := last.at), last.event).1
  }

  predicate Mentions(arrivals: seq<Arrival>, id: Key) {
    exists k :: 0 <= k < |arrivals| && arrivals[k].event.id == id
  }

  /** Each event id at its first arrival only. */
  function FirstArrivals(arrivals: seq<Arrival>): seq<Arrival> {
    if |arrivals| == 0 then []
    else
      var earlier, last := arrivals[..|arrivals| - 1], arrivals[|arrivals| - 1];
      if Mentions(earlier, last.event.id) then FirstArrivals(earlier) else FirstArrivals(earlier) + [last]
  }

  lemma {:induction false} FoldMarks(s: Ledger, arrivals: seq<Arrival>, id: Key)
    ensures id in Fold(s, arrivals).processed <==> id in s.processed || Mentions(arrivals, id)
  {
    if |arrivals| > 0 {
      var earlier, last := arrivals[..|arrivals| - 1], arrivals[|arrivals| - 1];
      FoldMarks(s, earlier, id);
      assert Mentions(arrivals, id) <==> Mentions(earlier, id) || last.event.id == id by {
        if Mentions(earlier, id) {
          var k :| 0 <= k < |earlier| && earlier[k].event.id == id;
          assert arrivals[k].event.id == id;
        }
        if last.event.id == id {
          assert arrivals[|arrivals| - 1].event.id == id;
        }
      }
    }
  }

  function Tables(s: Ledger): Ledger { s.(now := 0) }

  /** Replays change nothing: folding all arrivals leaves the tables as folding each event's first arrival does. */
  lemma {:induction false} ReplaysAreIgnored(s: Ledger, arrivals: seq<Arrival>)
    ensures Tables(Fold(s, arrivals)) == Tables(Fold(s, FirstArrivals(arrivals)))
  {
    if |arrivals| > 0 {
      var earlier, last := arrivals[..|arrivals| - 1], arrivals[|arrivals| - 1];
      ReplaysAreIgnored(s, earlier);
      FoldMarks(s, earlier, last.event.id);
      if !Mentions(earlier, last.event.id) {
        var first := FirstArrivals(earlier);
        assert (first + [last])[..|first|] == first;
        assert Fold(s, earlier).(now := last.at) == Fold(s, first).(now := last.at);
      }
    }
  }

  predicate Delivered(ops: seq<Op>, id: Key) {
    exists k :: 0 <= k < |ops| && ops[k].Webhook? && ops[k].event.id == id
  }

  /** The run without the webhooks whose event an earlier one already delivered. */
  function WithoutReplays(ops: seq<Op>): seq<Op> {
    if |ops| == 0 then []
    else
      var earlier, last := ops[..|ops| - 1], ops[|ops| - 1];
      if last.Webhook? && Delivered(earlier, last.event.id) then WithoutReplays(earlier)
      else WithoutReplays(earlier) + [last]
  }

  lemma {:induction false} DeliveredIsProcessed(s: Ledger, ops: seq<Op>, id: Key)
    requires Delivered(ops, id)
    ensures id in Run(s, ops).processed
  {
    var earlier, last := ops[..|ops| - 1], ops[|ops| - 1];
    PerformGrows(Run(s, earlier), last);
    var k :| 0 <= k < |ops| && ops[k].Webhook? && ops[k].event.id == id;
    if k < |earlier| {
      assert earlier[k] == ops[k];
      DeliveredIsProcessed(s, earlier, id);
    }
  }

  /** In any run, mixed with captures, voids, refunds and time, dropping every replayed webhook changes nothing. */
  lemma {:induction false} ReplaysDropOut(s: Ledger, ops: seq<Op>)
    ensures Run(s, WithoutReplays(ops)) == Run(s, ops)
  {
    if |ops| > 0 {
      var earlier, last := ops[..|ops| - 1], ops[|ops| - 1];
      ReplaysDropOut(s, earlier);
      if last.Webhook? && Delivered(earlier, last.event.id) {
        DeliveredIsProcessed(s, earlier, last.event.id);
      } else {
        var kept := WithoutReplays(earlier);
        assert (kept + [last])[..|kept|] == kept;
      }
    }
  }

  predicate DistinctIds(arrivals: seq<Arrival>) {
    forall j, k :: 0 <= j < k < |arrivals| ==> arrivals[j].event.id != arrivals[k].event.id
  }

  /** Some arriving payment event, not processed before, names the key. */
  predicate PaidBy(arrivals: seq<Arrival>, processed: set<Key>, key: Key) {
    exists k :: 0 <= k < |arrivals| && Pays(arrivals[k].event, processed, key)
  }

  ghost predicate UniqueKeys(s: Ledger) {
    forall i: Id, j: Id :: i < j < |s.intents| ==> s.intents[i].key != s.intents[j].key
  }

  /** What the fold makes of one intent depends only on which events arrived. */
  lemma {:induction false} FoldedStatus(s: Ledger, arrivals: seq<Arrival>, i: Id)
    requires UniqueKeys(s) && DistinctIds(arrivals) && i < |s.intents|
    ensures |Fold(s, arrivals).intents| == |s.intents|
    ensures Fold(s, arrivals).intents[i].key == s.intents[i].key
    ensures Fold(s, arrivals).intents[i].status
         == if PaidBy(arrivals, s.processed, s.intents[i].key) then Captured else s.intents[i].status
  {
    if |arrivals| > 0 {
      var earlier, last := arrivals[..|arrivals| - 1], arrivals[|arrivals| - 1];
      var before := Fold(s, earlier);
      forall j: Id | j < |s.intents|
        ensures |before.intents| == |s.intents| && before.intents[j].key == s.intents[j].key
      {
        FoldedStatus(s, earlier, j);
      }
      FoldedStatus(s, earlier, i);
      FoldMarks(s, earlier, last.event.id);
      assert !Mentions(earlier, last.event.id);
      PaidByAppend(earlier, last, s.processed, s.intents[i].key);
      assert earlier + [last] == arrivals;
    }
  }

  lemma PaidByAppend(earlier: seq<Arrival>, last: Arrival, processed: set<Key>, key: Key)
    ensures PaidBy(earlier + [last], processed, key) <==> PaidBy(earlier, processed, key) || Pays(last.event, processed, key)
  {
    if PaidBy(earlier, processed, key) {
      var k :| 0 <= k < |earlier| && Pays(earlier[k].event, processed, key);
      assert (earlier + [last])[k] == earlier[k];
    }
    assert (earlier + [last])[|earlier|] == last;
  }

  predicate Delivers(arrivals: seq<Arrival>, e: Event) {
    exists k :: 0 <= k < |arrivals| && arrivals[k].event == e
  }

  /** The same events in any order and at any times give every intent the same status, failed handlers included. */
  lemma OrderDoesNotMatter(s: Ledger, one: seq<Arrival>, other: seq<Arrival>, i: Id)
    requires UniqueKeys(s) && DistinctIds(one) && DistinctIds(other) && i < |s.intents|
    requires forall e: Event :: Delivers(one, e) <==> Delivers(other, e)
    ensures |Fold(s, one).intents| == |Fold(s, other).intents| == |s.intents|
    ensures Fold(s, one).intents[i].status == Fold(s, other).intents[i].status
  {
    FoldedStatus(s, one, i);
    FoldedStatus(s, other, i);
    SameDeliveriesPay(one, other, s.processed, s.intents[i].key);
    SameDeliveriesPay(other, one, s.processed, s.intents[i].key);
  }

  lemma SameDeliveriesPay(one: seq<Arrival>, other: seq<Arrival>, processed: set<Key>, key: Key)
    requires forall e: Event :: Delivers(one, e) ==> Delivers(other, e)
    ensures PaidBy(one, processed, key) ==> PaidBy(other, processed, key)
  {
    if PaidBy(one, processed, key) {
      var k :| 0 <= k < |one| && Pays(one[k].event, processed, key);
      assert Delivers(one, one[k].event);
      var j :| 0 <= j < |other| && other[j].event == one[k].event;
      assert Pays(other[j].event, processed, key);
    }
  }

  // ----- the service, row by row

  class PaymentService {
    var intents: seq<Intent>
    var refunds: seq<Refund>
    var processed: set<Key>
    ghost var voidCalls: set<Id>
    var now: int

    constructor (now: int)
      ensures State() == Ledger([], [], {}, {}, now)
    {
      intents, refunds, processed, voidCalls, this.now := [], [], {}, {}, now;
    }

    ghost function State(): Ledger
      reads this
    {
      Ledger(intents, refunds, processed, voidCalls, now)
    }

    method UpdateIntent(i: Id, status: Status, capturedAt: Option<int>, voidedAt: Option<int>, gatewayStatus: string)
      requires i < |intents|
      modifies this`intents
      ensures intents == old(intents)[i := Updated(old(intents)[i], status, capturedAt, voidedAt, gatewayStatus)]
    {
      intents := intents[i := Updated(intents[i], status, capturedAt, voidedAt, gatewayStatus)];
    }

    method Create(booking: Id, key: Option<Key>, amount: nat, chosen: Method) returns (o: Outcome)
      modifies this
      ensures (o, State()) == Perform(old(State()), CreateIntent(booking, key, amount, chosen))
    {
      var methodType := MethodTypeOf(chosen);
      if key == None {
        return Err(GatewayFailed);
      }
      var p := Intent(booking, key.value, amount, chosen, methodType, Authorized, None, None, None);
      if methodType == ImmediateCapture {
        p := p.(status := Captured, capturedAt := Some(now));
      }
      var existing := FindKey(intents, key.value);
      if existing.Some? || chosen == Unlisted {
        return Err(ConstraintViolation);
      }
      intents := intents + [p];
      o := Ok;
    }

    method HandleWebhook(e: Event) returns (o: Outcome)
      modifies this
      ensures (o, State()) == Perform(old(State()), Webhook(e))
    {
      if e.id in processed {
        return Err(Duplicate);
      }
      processed := processed + {e.id};
      o := Ok;
      if e.isPaid {
        o := HandlePaymentPaid(e);
      }
    }

    method HandlePaymentPaid(e: Event) returns (o: Outcome)
      modifies this`intents
      ensures var found := FindKey(old(intents), if e.attributesId == "" then e.id else e.attributesId);
        && o == (if found.Some? then Ok else Err(PaymentNotFound))
        && intents == if found == None then old(intents)
                      else old(intents)[found.value :=
                                          Updated(old(intents)[found.value], Captured, Some(now), None, "paid")]
    {
      var key := e.attributesId;
      if key == "" {
        key := e.id;
      }
      var found := FindKey(intents, key);
      if found == None {
        return Err(PaymentNotFound);
      }
      UpdateIntent(found.value, Captured, Some(now), None, "paid");
      o := Ok;
    }

    method CapturePayment(booking: Id, gatewayOk: bool) returns (o: Outcome)
      modifies this
      ensures (o, State()) == Perform(old(State()), Capture(booking, gatewayOk))
    {
      var found := FindBooking(intents, booking);
      if found == None {
        return Err(PaymentNotFound);
      }
      if intents[found.value].methodType == ImmediateCapture {
        return Ok;
      }
      if !gatewayOk {
        return Err(GatewayFailed);
      }
      UpdateIntent(found.value, Captured, Some(now), None, "captured");
      o := Ok;
    }

    method VoidPayment(booking: Id, gatewayOk: bool, refundKey: Option<Key>) returns (o: Outcome)
      modifies this
      ensures (o, State()) == Perform(old(State()), Void(booking, gatewayOk, refundKey))
    {
      var found := FindBooking(intents, booking);
      if found == None {
        return Err(PaymentNotFound);
      }
      if intents[found.value].methodType == ImmediateCapture {
        o := RefundPayment(booking, SystemTimeout, refundKey);
        return;
      }
      voidCalls := voidCalls + {found.value};
      if !gatewayOk {
        return Err(GatewayFailed);
      }
      UpdateIntent(found.value, Voided, None, Some(now), "voided");
      o := Ok;
    }

    method RefundPayment(booking: Id, reason: Reason, refundKey: Option<Key>) returns (o: Outcome)
      modifies this
      ensures (o, State()) == Perform(old(State()), Op.RefundPayment(booking, reason, refundKey))
    {
      var found := FindBooking(intents, booking);
      if found == None {
        return Err(PaymentNotFound);
      }
      if refundKey == None {
        return Err(GatewayFailed);
      }
      if exists r :: 0 <= r < |refunds| && refunds[r].key == refundKey.value {
        return Err(ConstraintViolation);
      }
      refunds := refunds + [Refund.Refund(found.value, booking, refundKey.value, intents[found.value].amount, reason)];
      UpdateIntent(found.value, Refunded, None, None, "refunded");
      o := Ok;
    }
  }
}
