/** The capability probe: classifies optional device signals into a
    low-end flag, the reduced-motion preference and a connection class. */
module Performance {
  import opened Common

  datatype ConnectionSpeed = Slow | Fast | Unknown

  datatype Metrics = Metrics(isLowEnd: bool, reducedMotion: bool, connectionSpeed: ConnectionSpeed)

  /** A Network Information object; `effectiveType` may be absent. */
  datatype NetworkInfo = NetworkInfo(effectiveType: Option<string>)

  /** The browser signals read once per mount. Absent signals are `None`. */
  datatype Signals = Signals(
    hardwareConcurrency: Option<nat>,
    deviceMemory: Option<real>,
    prefersReducedMotion: bool,
    connection: Option<NetworkInfo>,
    mozConnection: Option<NetworkInfo>,
    webkitConnection: Option<NetworkInfo>)

  const SlowTypes: seq<string> := ["slow-2g", "2g", "3g"]

  /** The state before the mount effect has run. */
  function InitialMetrics(): (m: Metrics)
    ensures !m.isLowEnd && !m.reducedMotion && m.connectionSpeed == Unknown
  {
    Metrics(false, false, Unknown)
  }

  /** `connection || mozConnection || webkitConnection`. */
  function ConnectionOf(s: Signals): (c: Option<NetworkInfo>)
    ensures c.None? <==> s.connection.None? && s.mozConnection.None? && s.webkitConnection.None?
    ensures s.connection.Some? ==> c == s.connection
    ensures s.connection.None? && s.mozConnection.Some? ==> c == s.mozConnection
    ensures s.connection.None? && s.mozConnection.None? ==> c == s.webkitConnection
  {
    if s.connection.Some? then s.connection
    else if s.mozConnection.Some? then s.mozConnection
    else s.webkitConnection
  }

  /** `(cores && cores < 4) || (memory && memory < 4)`, read as a boolean. */
  predicate LowEnd(s: Signals) {
    (s.hardwareConcurrency.Some? && s.hardwareConcurrency.value != 0 && s.hardwareConcurrency.value < 4)
    || (s.deviceMemory.Some? && s.deviceMemory.value != 0.0 && s.deviceMemory.value < 4.0)
  }

  function SpeedOf(connection: Option<NetworkInfo>): (c: ConnectionSpeed)
    ensures c == Unknown <==> connection.None?
    ensures c == Slow <==> connection.Some? && connection.value.effectiveType.Some?
                           && connection.value.effectiveType.value in SlowTypes
    ensures connection.Some? && connection.value.effectiveType.None? ==> c == Fast
  {
    match connection
    case None => Unknown
    case Some(info) =>
      if info.effectiveType.Some? && info.effectiveType.value in SlowTypes then Slow else Fast
  }

  /** The metrics the mount effect stores. */
  function Probe(s: Signals): (m: Metrics)
    ensures m.isLowEnd <==> LowEnd(s)
    ensures m.reducedMotion == s.prefersReducedMotion
    ensures m.connectionSpeed == SpeedOf(ConnectionOf(s))
    ensures m.connectionSpeed == Unknown <==> ConnectionOf(s).None?
  {
    Metrics(LowEnd(s), s.prefersReducedMotion, SpeedOf(ConnectionOf(s)))
  }

  /** Low-end is monotone in each signal: a device with fewer cores, or less
      memory, that is still reported, is classified at least as low-end. */
  lemma LowEndMonotone(s: Signals, t: Signals)
    requires LowEnd(s)
    requires t.hardwareConcurrency.Some? == s.hardwareConcurrency.Some?
    requires t.deviceMemory.Some? == s.deviceMemory.Some?
    requires s.hardwareConcurrency.Some? ==> 0 < t.hardwareConcurrency.value <= s.hardwareConcurrency.value
    requires s.deviceMemory.Some? ==> 0.0 < t.deviceMemory.value <= s.deviceMemory.value
    ensures LowEnd(t)
  {
  }

  /** The boundary at 4 on both signals, and absent signals never trigger. */
  lemma LowEndExamples(r: bool, c: Option<NetworkInfo>)
    ensures Probe(Signals(Some(2), Some(8.0), r, c, None, None)).isLowEnd
    ensures Probe(Signals(Some(8), Some(2.0), r, c, None, None)).isLowEnd
    ensures !Probe(Signals(Some(8), Some(8.0), r, c, None, None)).isLowEnd
    ensures !Probe(Signals(Some(4), Some(4.0), r, c, None, None)).isLowEnd
    ensures !Probe(Signals(None, None, r, c, None, None)).isLowEnd
    ensures !Probe(Signals(Some(0), Some(0.0), r, c, None, None)).isLowEnd
  {
  }
}
