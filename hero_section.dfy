/** The hero section's fidelity selection: whether the 3D canvas renders and
    which parameters its sphere, particles and renderer receive. */
module HeroSection {
  import opened Performance

  datatype SphereParams = SphereParams(radius: int, widthSegments: int, heightSegments: int, distort: real, speed: int)

  /** `dpr={isLowEnd ? 1 : [1, 2]}`. */
  datatype Dpr = Fixed(ratio: int) | Range(lo: int, hi: int)

  datatype CanvasParams = CanvasParams(
    antialias: bool, dpr: Dpr, sphere: SphereParams, particleCount: nat, positionBufferLength: nat)

  datatype Background = Canvas3D(params: CanvasParams) | GradientFallback

  function SphereFor(isLowEnd: bool): SphereParams {
    if isLowEnd then SphereParams(1, 32, 32, 0.3, 1) else SphereParams(1, 100, 200, 0.5, 2)
  }

  function ParticleCount(isLowEnd: bool): nat {
    if isLowEnd then 300 else 1000
  }

  /** What the canvas and its children receive for a given `isLowEnd`. */
  function CanvasFor(isLowEnd: bool): (c: CanvasParams)
    ensures c.positionBufferLength == 3 * c.particleCount
    ensures c.antialias == !isLowEnd
    ensures isLowEnd ==> c.sphere == SphereParams(1, 32, 32, 0.3, 1) && c.particleCount == 300 && c.dpr == Fixed(1)
    ensures !isLowEnd ==> c.sphere == SphereParams(1, 100, 200, 0.5, 2) && c.particleCount == 1000 && c.dpr == Range(1, 2)
  {
    var n := ParticleCount(isLowEnd);
    CanvasParams(!isLowEnd, if isLowEnd then Fixed(1) else Range(1, 2), SphereFor(isLowEnd), n, 3 * n)
  }

  predicate ShouldRender3D(m: Metrics) {
    !m.reducedMotion && !m.isLowEnd
  }

  /** The high-fidelity parameters. */
  const HighFidelity: CanvasParams := CanvasParams(true, Range(1, 2), SphereParams(1, 100, 200, 0.5, 2), 1000, 3000)

  /** The background: the canvas only when neither flag is set, so its
      children always get the high-fidelity parameters. */
  function BackgroundFor(m: Metrics): (b: Background)
    ensures b.Canvas3D? <==> !m.reducedMotion && !m.isLowEnd
    ensures b.Canvas3D? ==> b.params == HighFidelity
  {
    if ShouldRender3D(m) then Canvas3D(CanvasFor(m.isLowEnd)) else GradientFallback
  }

  /** The low-end parameter branches are never reached by a rendered canvas. */
  lemma LowEndBranchesUnreachable(m: Metrics)
    ensures BackgroundFor(m).Canvas3D? ==> BackgroundFor(m).params != CanvasFor(true)
  {
  }

  /** On a probed device the canvas renders exactly when the device is not low-end and
      no reduced motion is asked for. */
  lemma ProbedBackground(s: Signals)
    ensures BackgroundFor(Probe(s)).Canvas3D? <==> !s.prefersReducedMotion && !LowEnd(s)
  {
  }

  /** Before the probe has run, the initial metrics select the canvas. */
  lemma FirstRenderSelectsCanvas()
    ensures BackgroundFor(InitialMetrics()) == Canvas3D(HighFidelity)
  {
  }
}
