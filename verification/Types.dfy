/** Values shared by the calculator, the normaliser and the reconcile machine. */
module Types {

  datatype Option<+T> = None | Some(value: T)

  /** A computation yields a value, returns an error, or panics; reconcileWPA recovers from panics. */
  datatype Outcome<+T> = Ok(value: T) | Err | Panic

  datatype MetricKind = External | Resource

  /** A metric of a valid spec whose missing watermark has been filled in. Watermarks are milli-values. */
  datatype Metric = Metric(kind: MetricKind, name: string, low: int, high: int)

  datatype Source =
    | Metrics(metrics: seq<Metric>)
    | Recommender(name: string, hasLow: bool, hasHigh: bool)

  datatype Converge = Off | TowardsHigh | TowardsLow

  /** The WPA specification the controller works from. Factors and tolerance are milli-values, times are seconds. */
  datatype Config = Config(
    targetName: string,
    min: int,
    max: int,
    tolerance: int,
    upFactor: int,
    downFactor: int,
    upWindow: int,
    downWindow: int,
    upDelay: int,
    downDelay: int,
    modulo: int,
    converge: Converge,
    average: bool,
    tolerateZero: bool,
    dryRun: bool,
    minAvailable: int,
    readinessDelay: int,
    skipOwnerCheck: bool,
    skipNotScalingEvents: bool,
    source: Source)

  /** What the custom resource definition and CheckWPAValidity guarantee of a defaulted spec. */
  ghost predicate ValidConfig(cfg: Config) {
    && 1 <= cfg.min <= cfg.max
    && 0 <= cfg.tolerance <= 1000
    && 0 <= cfg.upFactor
    && 0 <= cfg.downFactor < 100000
    && 1 <= cfg.upWindow && 1 <= cfg.downWindow
    && 0 <= cfg.upDelay && 0 <= cfg.downDelay
    && 1 <= cfg.modulo
  }

  /** Scale.Spec.Replicas and Scale.Status.Replicas of the target. */
  datatype Target = Target(spec: int, status: nat)

  /** A proposal: replica count, the metric it comes from, that metric's timestamp and ready count, and
      whether some metric is above or below its watermarks. */
  datatype Calc = Calc(replicas: int, name: string, timestamp: int, ready: int, above: bool, below: bool)
}
