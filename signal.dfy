/** The strategy signal handed to risk and execution, and the bus event a
    strategy publishes it in. The generated id and the timestamp are not
    modelled. */
module Signals {
  import opened Common

  datatype Signal = Signal(
    symbol: string,
    direction: string,
    score: real,
    confidence: real,
    features: map<string, real>,
    metadata: map<string, string>)

  /** `signal.model_dump()` without the id and timestamp. */
  function SignalPayload(s: Signal): (p: Payload)
    ensures p.Keys == {"symbol", "direction", "score", "confidence", "features", "metadata"}
    ensures p["direction"] == Str(s.direction)
    ensures p["features"].Dict? && p["features"].fields.Keys == s.features.Keys
    ensures forall k :: k in s.features ==> p["features"].fields[k] == Num(s.features[k])
    ensures p["metadata"].Dict? && p["metadata"].fields.Keys == s.metadata.Keys
    ensures forall k :: k in s.metadata ==> p["metadata"].fields[k] == Str(s.metadata[k])
  {
    map["symbol" := Str(s.symbol), "direction" := Str(s.direction),
        "score" := Num(s.score), "confidence" := Num(s.confidence),
        "features" := Dict(map k | k in s.features :: Num(s.features[k])),
        "metadata" := Dict(map k | k in s.metadata :: Str(s.metadata[k]))]
  }

  /** `Strategy.emit_signal`: a "signal" event from source "strategy" under
      the signal's symbol, at time `ts`. */
  function SignalEvent(s: Signal, ts: real): (e: Event)
    ensures e.eventType == "signal" && e.source == "strategy" && e.symbol == s.symbol
    ensures e.payload == SignalPayload(s)
  {
    Event("signal", ts, "strategy", s.symbol, SignalPayload(s))
  }
}
