/** The simulated recovery touches (go/rz/execution.go), over an arbitrary
    deterministic draw; `SeededDraw` is the source's own generator. */
module Execution {
  import opened Types
  import opened Classify

  /** The draw for an event id and attempt. */
  type Draw = (string, int) -> real

  /** The sum of an id's character codes. */
  function CodeSum(id: string): nat {
    if id == "" then 0 else CodeSum(id[..|id| - 1]) + id[|id| - 1] as int
  }

  /** The product whose low 32 bits are the draw. */
  function Product(id: string, salt: int): int { (CodeSum(id) + salt * 9973) * 2654435761 }

  /** The generator's value for an id and an attempt: a 32-bit product over 2^32,
      which a double holds exactly. */
  function SeededRandom(id: string, salt: int): (r: real)
    ensures 0.0 <= r < 1.0
  {
    (Product(id, salt) % 0x1_0000_0000) as real / 4294967296.0
  }

  method ComputeSeededRandom(id: string, salt: int) returns (r: real)
    ensures r == SeededRandom(id, salt)
  {
    var seed := 0;
    for i := 0 to |id|
      invariant seed == CodeSum(id[..i])
    {
      assert id[..i + 1][..i] == id[..i];
      seed := seed + id[i] as int;
    }
    assert id[..|id|] == id;
    seed := seed + salt * 9973;
    var v := seed * 2654435761 % 0x1_0000_0000;
    r := v as real / 4294967296.0;
  }

  lemma RemainderIs(x: int, q: int, v: int)
    requires 0 <= v < 0x1_0000_0000 && x == q * 0x1_0000_0000 + v
    ensures x % 0x1_0000_0000 == v
  {
    var d, r := x / 0x1_0000_0000, x % 0x1_0000_0000;
    assert x == d * 0x1_0000_0000 + r && 0 <= r < 0x1_0000_0000;
    assert d == q;
  }

  /** A draw, from the quotient and the remainder of its product. */
  lemma DrawIs(id: string, salt: int, q: int, v: int)
    requires 0 <= v < 0x1_0000_0000 && Product(id, salt) == q * 0x1_0000_0000 + v
    ensures SeededRandom(id, salt) == v as real / 4294967296.0
  {
    hide Product;
    RemainderIs(Product(id, salt), q, v);
  }

  /** The draws of the source. */
  function SeededDraw(): Draw {
    (id: string, attempt: int) => SeededRandom(id, attempt)
  }

  datatype Result = Result(recovered: bool, channel: Channel, note: string)

  function RetryProbability(r: Reason): real {
    match r
    case BankDeclinedTransient => 0.7
    case MandateInsufficient => 0.5
    case InsufficientFunds => 0.5
    case CardExpired => 0.35
    case MandateBankDown => 0.6
    case MandateAuthPending => 0.3
    case Auth3dsAbandoned => 0.3
    case _ => 0.0
  }

  /** The source panics on a flow it does not know. */
  function ExecuteAction(draw: Draw, t: Task, attempt: int): Result
    requires !t.flow.OtherFlow?
  {
    var r := draw(t.eventId, attempt);
    match t.flow
    case FailedSubscription => Result(r < RetryProbability(t.reason), Api, "")
    case MandateRetry => Result(r < RetryProbability(t.reason), Api, "")
    case CheckoutAbandonment => Result(r < 0.4, if attempt == 0 then Email else Whatsapp, "")
    case B2BReceivables =>
      Result(r < 0.35, if attempt == 0 then Email else if attempt == 1 then Whatsapp else Sms, "")
    case PaymentDegradation => Result(t.healed, Api, "")
    case HinglishVoice => Result(r < 0.3, Voice, if r < 0.5 then "" else "retry once more")
    case PromiseToPay => Result(r < 0.5, Email, "")
  }
}
