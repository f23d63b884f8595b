/** Values shared by the batch model and the streaming engine: bars, sides and journal events.
    Prices are exact reals; a bar's `time` is an integer timestamp. */
module Market {

  datatype Option<+T> = None | Some(value: T)

  datatype Bar = Bar(time: int, high: real, low: real, close: real)

  /** One side of the market.  `Long` stands for "up", "bull" and "long"; `Short` for "down", "bear" and "short". */
  datatype Side = Long | Short

  /** Which extreme of a bar is meant. */
  datatype Edge = Top | Bottom

  datatype Outcome = Loss | Win | Scratch

  /** A day's trend and its Kill Zone: raids count only at bar indices in [start, end). */
  datatype Session = Session(side: Side, start: int, end: int)

  /** Identifies one search: the raid bar and the bar that confirmed the structure shift. */
  datatype Key = Key(raid: nat, mss: nat)

  datatype Event =
    | SwingHigh(time: int, price: real, bar: nat)
    | SwingLow(time: int, price: real, bar: nat)
    | Raid(time: int, side: Side, level: real, extreme: real, bar: nat, reference: Option<real>)
    | Mss(time: int, side: Side, level: real, close: real, raidBar: nat, mssBar: nat)
    | FvgFound(time: int, side: Side, top: real, bottom: real, frame: nat, mssBar: nat)
    | MinStopRejected(time: int, side: Side, riskPips: real)
    | CandidateReady(time: int, side: Side, entry: real, stop: real, raidBar: nat, mssBar: nat)
    | OrderFilled(time: int, side: Side, entry: real, stop: real, target: real, fillBar: nat)
    | TradeClosed(time: int, side: Side, outcome: Outcome, exitPrice: real)

  datatype Trade = Trade(side: Side, entry: real, stop: real, target: real, riskPips: real,
                         outcome: Outcome, exitPrice: real)

  const MIN_STOP_PIPS: real := 5.0
  const SWING_N: nat := 2
  const MSS_WINDOW: nat := 9
  const TARGET_LOOKBACK: nat := 6

  function Min(a: int, b: int): int { if a <= b then a else b }

  function Max(a: int, b: int): int { if a >= b then a else b }

  /** A price distance in pips of 0.0001. */
  function Pips(distance: real): real {
    distance / 0.0001
  }

  /** The two days agree on their first n bars. */
  ghost predicate Agree(d: seq<Bar>, d': seq<Bar>, n: nat) {
    n <= |d| && n <= |d'| && forall k :: 0 <= k < n ==> d[k] == d'[k]
  }

  /** k comes no later than k' in the batch model's search order: by raid bar, then by shift bar. */
  predicate LexLe(k: Key, k': Key) {
    k.raid < k'.raid || (k.raid == k'.raid && k.mss <= k'.mss)
  }
}
