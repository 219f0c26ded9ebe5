/** Intent ids and bounded retries: one logical decision, at most a few orders, one after the other
    (engine/application/trading_cycle.py). */
module Attempts {
  import opened Common
  import opened OrderModel
  import opened Ledger
  import opened LedgerService

  /** What the bot has decided to do, named by the candle or by the moment the position was opened. */
  datatype Decision = Decision(stem: string, purpose: Purpose)

  function PurposeName(p: Purpose): string {
    match p
    case Entry => "ENTRY"
    case Exit => "EXIT"
    case StopExit => "STOP_EXIT"
    case ProtectiveStop => "PROTECTIVE_STOP"
  }

  function MaxAttempts(p: Purpose): nat {
    if p.Entry? then 1 else 3
  }

  function BaseId(d: Decision): string {
    d.stem + (":" + PurposeName(d.purpose))
  }

  function IntentId(d: Decision, attempt: nat): string
    requires attempt < 10
  {
    BaseId(d) + ":" + [['0', '1', '2', '3', '4', '5', '6', '7', '8', '9'][attempt]]
  }

  function OrderOf(d: Decision, attempt: nat): ClientOrderId
    requires attempt < 10
  {
    BotOrder(IntentId(d, attempt))
  }

  /** Ended without any execution: only then may the next attempt be made. */
  predicate Retryable(o: OrderRow) {
    o.status in {Rejected, Canceled, Expired} && o.executed == 0.0
  }

  predicate Spent(db: Db, d: Decision, attempt: nat)
    requires attempt < 10
  {
    OrderOf(d, attempt) in db.orders && Retryable(db.orders[OrderOf(d, attempt)])
  }

  predicate SpentBelow(db: Db, d: Decision, attempt: nat)
    requires attempt <= 10
  {
    forall j | 0 <= j < attempt :: Spent(db, d, j)
  }

  class IntentChooser {
    const store: Store

    constructor (store: Store)
      ensures this.store == store
    {
      this.store := store;
    }

    /** The first attempt that is not used up; none when all are. */
    method NextIntentId(d: Decision) returns (attempt: Option<nat>)
      ensures match attempt
              case Some(k) =>
                k < (if d.purpose == Entry then 1 else 3) && SpentBelow(store.Tables(), d, k) && !Spent(store.Tables(), d, k)
              case None => SpentBelow(store.Tables(), d, if d.purpose == Entry then 1 else 3)
    {
      for k := 0 to MaxAttempts(d.purpose)
        invariant SpentBelow(store.Tables(), d, k)
      {
        var c := OrderOf(d, k);
        if c !in store.orders {
          return Some(k);
        }
        if !(store.orders[c].status in {Rejected, Canceled, Expired} && store.orders[c].executed == 0.0) {
          return Some(k);
        }
      }
      return None;
    }
  }

  // ------------------------------------------------------------------ ids tell decisions apart

  /** Two concatenations that agree on the length of the right part agree part by part. */
  lemma SplitRight(a: string, b: string, x: string, y: string)
    requires a + x == b + y && |x| == |y|
    ensures a == b && x == y
  {
    assert |a| == |b|;
    assert (a + x)[..|a|] == a && (b + y)[..|b|] == b;
    assert (a + x)[|a|..] == x && (b + y)[|b|..] == y;
  }

  lemma SameDigit(j: nat, k: nat)
    requires j < 10 && k < 10
    requires ['0', '1', '2', '3', '4', '5', '6', '7', '8', '9'][j] == ['0', '1', '2', '3', '4', '5', '6', '7', '8', '9'][k]
    ensures j == k
  {
  }

  /** Two characters from the end tell the purposes apart, so no name hides behind another one. */
  function Mark(p: Purpose): (char, char) {
    match p
    case Entry => ('E', 'N')
    case Exit => (':', 'E')
    case StopExit => ('_', 'E')
    case ProtectiveStop => ('_', 'S')
  }

  lemma MarkOf(d: Decision)
    ensures |BaseId(d)| >= 5
    ensures (BaseId(d)[|BaseId(d)| - 5], BaseId(d)[|BaseId(d)| - 4]) == Mark(d.purpose)
  {
  }

  lemma SamePurpose(a: Decision, b: Decision)
    requires BaseId(a) == BaseId(b)
    ensures a == b
  {
    MarkOf(a);
    MarkOf(b);
    assert a.purpose == b.purpose;
    SplitRight(a.stem, b.stem, ":" + PurposeName(a.purpose), ":" + PurposeName(b.purpose));
  }

  /** One intent id belongs to one attempt of one decision. */
  lemma IntentIdInjective(a: Decision, j: nat, b: Decision, k: nat)
    requires j < 10 && k < 10 && IntentId(a, j) == IntentId(b, k)
    ensures a == b && j == k
  {
    var digits := ['0', '1', '2', '3', '4', '5', '6', '7', '8', '9'];
    SplitRight(BaseId(a) + ":", BaseId(b) + ":", [digits[j]], [digits[k]]);
    SplitRight(BaseId(a), BaseId(b), ":", ":");
    SameDigit(j, k);
    SamePurpose(a, b);
  }
}
