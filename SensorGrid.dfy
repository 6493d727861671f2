/** The live-readings grid of the second dashboard: a three-level status per sensor card. */
module SensorGrid {
  import opened Common

  /** A card's status; a card is never hazardous. */
  datatype CardStatus = Good | Moderate | Poor

  function StatusRank(s: CardStatus): int {
    match s
    case Good => 0
    case Moderate => 1
    case Poor => 2
  }

  /** `getStatus`: a missing value is moderate; otherwise good up to `goodMax`, moderate up to `moderateMax`. */
  function GridStatus(value: Option<real>, goodMax: real, moderateMax: real): (s: CardStatus)
    ensures value.None? ==> s == Moderate
    ensures value.Some? ==> (s == Good <==> value.value <= goodMax)
    ensures value.Some? ==> (s == Poor <==> value.value > moderateMax && value.value > goodMax)
    ensures value.Some? && goodMax <= moderateMax ==> (s == Poor <==> value.value > moderateMax)
  {
    match value
    case None => Moderate
    case Some(v) => if v <= goodMax then Good else if v <= moderateMax then Moderate else Poor
  }

  /** With ordered limits a larger reading never gets a better status. */
  lemma GridStatusMonotone(a: real, b: real, goodMax: real, moderateMax: real)
    requires goodMax <= moderateMax
    requires a <= b
    ensures StatusRank(GridStatus(Some(a), goodMax, moderateMax)) <= StatusRank(GridStatus(Some(b), goodMax, moderateMax))
  {
  }

  /** The latest reading as the grid sees it: each field may be missing. */
  datatype Latest = Latest(
    temperature: Option<real>, humidity: Option<real>, pm25: Option<real>,
    noise: Option<real>, light: Option<real>, timestamp: Option<string>)

  /** One rendered card: its title, the value shown and its status. */
  datatype Card = Card(title: string, value: Option<real>, status: CardStatus)

  /** The (good, moderate) limits of the five cards. */
  const TemperatureLimits: (real, real) := (26.0, 30.0)
  const HumidityLimits: (real, real) := (60.0, 75.0)
  const Pm25Limits: (real, real) := (35.0, 55.0)
  const NoiseLimits: (real, real) := (55.0, 70.0)
  const LightLimits: (real, real) := (300.0, 700.0)

  function CardOf(title: string, value: Option<real>, limits: (real, real)): Card {
    Card(title, value, GridStatus(value, limits.0, limits.1))
  }

  /** The five readings a card can show. */
  datatype Field = TemperatureField | HumidityField | Pm25Field | NoiseField | LightField

  /** `latest?.field ?? null`: a field of a reading that may itself be missing. */
  function FieldOf(latest: Option<Latest>, f: Field): Option<real> {
    match latest
    case None => None
    case Some(l) =>
      match f
      case TemperatureField => l.temperature
      case HumidityField => l.humidity
      case Pm25Field => l.pm25
      case NoiseField => l.noise
      case LightField => l.light
  }

  /** The five cards of the grid, in display order, each classified with its own limits. */
  function Cards(latest: Option<Latest>): (cards: seq<Card>)
    ensures |cards| == 5
    ensures cards[0].title == "Temperature" && cards[1].title == "Humidity" && cards[2].title == "PM2.5"
    ensures cards[3].title == "Noise" && cards[4].title == "Light"
    ensures latest.None? ==> forall i :: 0 <= i < 5 ==> cards[i].value.None? && cards[i].status == Moderate
    ensures latest.Some? ==>
              cards[0].value == latest.value.temperature && cards[1].value == latest.value.humidity &&
              cards[2].value == latest.value.pm25 && cards[3].value == latest.value.noise &&
              cards[4].value == latest.value.light
  {
    [CardOf("Temperature", FieldOf(latest, TemperatureField), TemperatureLimits),
     CardOf("Humidity", FieldOf(latest, HumidityField), HumidityLimits),
     CardOf("PM2.5", FieldOf(latest, Pm25Field), Pm25Limits),
     CardOf("Noise", FieldOf(latest, NoiseField), NoiseLimits),
     CardOf("Light", FieldOf(latest, LightField), LightLimits)]
  }

  /** Every card is good up to its first limit and poor beyond its second, and the limits are ordered. */
  lemma CardLimits(latest: Latest, i: nat)
    requires i < 5
    requires Cards(Some(latest))[i].value.Some?
    ensures var c := Cards(Some(latest))[i];
            var lim := [TemperatureLimits, HumidityLimits, Pm25Limits, NoiseLimits, LightLimits][i];
            lim.0 <= lim.1 &&
            (c.status == Good <==> c.value.value <= lim.0) &&
            (c.status == Poor <==> c.value.value > lim.1)
  {
  }
}
