/**
 * The value-source capability the scale reads raw samples through: one
 * blocking read and one read bounded by a timeout. The concrete sensor is
 * an oracle: the outcome of the k-th call made on the adaptor, given what
 * that call asked for. Every call is recorded in the adaptor's log, so the
 * scale's contracts can say which calls it made, in which order, and with
 * which timeouts.
 */
module Adaptor {

  /** A raw sample, as a signed 32-bit integer. */
  newtype int32 = x: int | -0x8000_0000 <= x < 0x8000_0000

  /** An unsigned 32-bit integer (the platform's uint), used for timeouts in microseconds. */
  newtype uint32 = x: int | 0 <= x < 0x1_0000_0000

  datatype Option<T> = None | Some(value: T)

  /** What a call asked for: a blocking read, or a read within a timeout. */
  datatype Request = Blocking | Timed(timeout: uint32)

  /** One call made on the adaptor and its outcome (None when it reported failure). */
  datatype Call = Call(req: Request, result: Option<int32>)

  /** The sensor behind the adaptor: the outcome of the k-th call, given its request. */
  type Sensor = (nat, Request) -> Option<int32>

  /** The k-th call on the adaptor, when it asks for req. */
  function Outcome(sensor: Sensor, k: nat, req: Request): (c: Call)
    ensures c.req == req
  {
    Call(req, sensor(k, req))
  }

  class ScaleAdaptor {
    const sensor: Sensor
    var log: seq<Call>

    constructor (sensor: Sensor)
      ensures this.sensor == sensor && log == []
    {
      this.sensor := sensor;
      log := [];
    }

    /** get_value: one blocking read. The value is meaningful only when ok. */
    method GetValue() returns (ok: bool, value: int32)
      modifies this
      ensures log == old(log) + [Outcome(sensor, |old(log)|, Blocking)]
      ensures ok <==> Outcome(sensor, |old(log)|, Blocking).result.Some?
      ensures ok ==> value == Outcome(sensor, |old(log)|, Blocking).result.value
    {
      var c := Outcome(sensor, |log|, Blocking);
      log := log + [c];
      ok := c.result.Some?;
      value := if c.result.Some? then c.result.value else 0;
    }

    /** get_value_timeout: one read bounded by timeout microseconds. */
    method GetValueTimeout(timeout: uint32) returns (ok: bool, value: int32)
      modifies this
      ensures log == old(log) + [Outcome(sensor, |old(log)|, Timed(timeout))]
      ensures ok <==> Outcome(sensor, |old(log)|, Timed(timeout)).result.Some?
      ensures ok ==> value == Outcome(sensor, |old(log)|, Timed(timeout)).result.value
    {
      var c := Outcome(sensor, |log|, Timed(timeout));
      log := log + [c];
      ok := c.result.Some?;
      value := if c.result.Some? then c.result.value else 0;
    }
  }
}
