/** The limiter every delivery draws on, as an exact token bucket.

Time is a whole number of nanoseconds. The bucket holds credit in
nanoseconds: it gains one per nanosecond up to `period * burst`, and a
delivery costs `period`. */
module TokenBucket {

  type Time = int

  const SECOND: Time := 1_000_000_000
  const FLOOR_SECONDS := 5

  datatype Bucket = Bucket(period: nat, burst: nat, level: int, last: Time) {

    function Capacity(): int {
      period * burst
    }

    ghost predicate Valid() {
      && FLOOR_SECONDS * SECOND <= period
      && 1 <= burst
      && 0 <= level <= Capacity()
    }

    // A clock behind the last grant earns nothing; it never loses credit.
    function CreditAt(now: Time): int {
      var earned := if last < now then now - last else 0;
      if level + earned <= Capacity() then level + earned else Capacity()
    }

    predicate Allows(now: Time) {
      period <= CreditAt(now)
    }

    // A refused request leaves the bucket alone.
    function Spend(now: Time): Bucket {
      if Allows(now) then this.(level := CreditAt(now) - period, last := now) else this
    }
  }

  // Whatever the configuration asks for, at least five seconds a token and a burst of one;
  // full, so that a configured burst of zero cannot lock sends out.
  function NewBucket(burst: int, perSeconds: int): (b: Bucket)
    ensures b.Valid()
    ensures b.period == (if perSeconds < 5 then 5 else perSeconds) * 1_000_000_000
    ensures b.burst == if burst < 1 then 1 else burst
    ensures b.level == b.Capacity()
    ensures b.period <= b.level
  {
    var seconds := if perSeconds < FLOOR_SECONDS then FLOOR_SECONDS else perSeconds;
    var depth := if burst < 1 then 1 else burst;
    assert seconds * SECOND * 1 <= seconds * SECOND * depth;
    Bucket(seconds * SECOND, depth, seconds * SECOND * depth, 0)
  }

  // A delivery is granted exactly when the credit kept and the time since the last grant pay for it.
  lemma GrantedIffPaidFor(b: Bucket, now: Time)
    requires b.Valid()
    ensures b.Allows(now) <==> b.period <= b.level || b.period <= b.level + (now - b.last)
    ensures b.last + b.period <= now ==> b.Allows(now)
  {
    assert b.period * 1 <= b.period * b.burst;
  }

  // A grant costs one period, of credit or of time, and a clock that fell behind costs nothing more.
  lemma GrantCostsAPeriod(b: Bucket, now: Time)
    requires b.Valid() && b.Allows(now)
    ensures b.Spend(now).last == now && b.Spend(now).period == b.period && b.Spend(now).burst == b.burst
    ensures now <= b.last ==> b.Spend(now).level == b.level - b.period
    ensures b.last < now && b.level + (now - b.last) <= b.period * b.burst ==>
              b.Spend(now).level == b.level + (now - b.last) - b.period
    ensures b.last < now && b.period * b.burst < b.level + (now - b.last) ==>
              b.Spend(now).level == b.period * b.burst - b.period
  {
  }
}
