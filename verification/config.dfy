/** The card's configuration: acceptance in `setConfig`, the defaults it
    fills in, and how the update step reads numbers out of it. */
module CardConfig {
  import opened Wrappers

  /** A configuration value as the dashboard's YAML delivers it: a key that
      is absent reads as undefined, and a key written with an empty value or
      `~` holds null. */
  datatype Value = Undefined | Null | Num(x: real) | Text(s: string) | Flag(b: bool)

  /** A configuration object: keys that are not present read as undefined. */
  type Config = map<string, Value>

  datatype ConfigError = MissingEntity | MissingDuration

  function Get(c: Config, key: string): Value {
    if key in c then c[key] else Undefined
  }

  /** JavaScript truthiness of a value. */
  predicate Truthy(v: Value)
    ensures Truthy(v) <==> !(v.Undefined? || v.Null? || v == Num(0.0) || v == Text("") || v == Flag(false))
  {
    match v
    case Undefined => false
    case Null => false
    case Num(x) => x != 0.0
    case Text(s) => s != ""
    case Flag(b) => b
  }

  const DefaultNoPeriodMessage: string :=
    "No suitable {{ durationHours }} hour period found{{ maxPrice !== undefined ? ' below {{ maxPrice }}{{ unitstr }}' : '' }}."

  /** The defaults `setConfig` lays under the user's configuration. */
  function Defaults(): Config {
    map[
      "title" := Text("Cheapest Period"),
      "unitstr" := Text("p/kWh"),
      "multiplier" := Num(100.0),
      "roundUnits" := Num(2.0),
      "hour12" := Flag(false),
      "lowlimit" := Num(5.0),
      "mediumlimit" := Num(20.0),
      "highlimit" := Num(30.0),
      "maxPrice" := Undefined,
      "noPeriodMessage" := Text(DefaultNoPeriodMessage),
      "cardRefreshIntervalSeconds" := Num(60.0)
    ]
  }

  /** Accepts a configuration naming at least one rates entity and a
      duration, and fills in the defaults; a key the user supplies wins over
      the default, even when its value is undefined. */
  function SetConfig(user: Config): (r: Result<Config, ConfigError>)
    ensures r == Failure(MissingEntity) <==>
              !Truthy(Get(user, "currentEntity")) && !Truthy(Get(user, "futureEntity"))
    ensures r == Failure(MissingDuration) <==>
              (Truthy(Get(user, "currentEntity")) || Truthy(Get(user, "futureEntity")))
              && Get(user, "durationHours") == Undefined
    ensures r.Success? ==> r.value.Keys == Defaults().Keys + user.Keys
    ensures r.Success? ==> forall k :: k in user ==> r.value[k] == user[k]
    ensures r.Success? ==> forall k :: k in Defaults() && k !in user ==> r.value[k] == Defaults()[k]
  {
    if !Truthy(Get(user, "currentEntity")) && !Truthy(Get(user, "futureEntity")) then
      Failure(MissingEntity)
    else if Get(user, "durationHours") == Undefined then
      Failure(MissingDuration)
    else
      Success(Defaults() + user)
  }

  /** `parseFloat` on a value; `None` is NaN. */
  function ParseFloat(v: Value): (r: Option<real>)
    ensures r.Some? <==> v.Num?
    ensures v.Num? ==> r == Some(v.x)
  {
    match v
    case Num(x) => Some(x)
    case _ => None
  }

  /** JavaScript's numeric conversion of a value used in arithmetic; `None`
      is NaN. */
  function ToNumber(v: Value): (r: Option<real>)
    ensures v.Num? ==> r == Some(v.x)
    ensures v.Flag? ==> r == Some(if v.b then 1.0 else 0.0)
    ensures v.Null? ==> r == Some(0.0)
    ensures v.Undefined? || v.Text? ==> r == None
  {
    match v
    case Num(x) => Some(x)
    case Null => Some(0.0)
    case Flag(b) => Some(if b then 1.0 else 0.0)
    case _ => None
  }

  /** `parseFloat(config.durationHours)`. */
  function DurationHours(c: Config): (r: Option<real>)
    ensures r.Some? <==> Get(c, "durationHours").Num?
    ensures r.Some? ==> r.value == Get(c, "durationHours").x
  {
    ParseFloat(Get(c, "durationHours"))
  }

  /** The price ceiling. A NaN ceiling fails every comparison, exactly like
      an absent one, so both read as `None`. */
  function MaxPrice(c: Config): (r: Option<real>)
    ensures r.Some? <==> Get(c, "maxPrice").Num?
    ensures r.Some? ==> r.value == Get(c, "maxPrice").x
  {
    if Get(c, "maxPrice") == Undefined then None else ParseFloat(Get(c, "maxPrice"))
  }

  /** `parseFloat(config.multiplier) || 1`: NaN and zero fall back to 1. */
  function Multiplier(c: Config): (r: real)
    ensures r != 0.0
    ensures Get(c, "multiplier").Num? && Get(c, "multiplier").x != 0.0 ==> r == Get(c, "multiplier").x
    ensures !(Get(c, "multiplier").Num? && Get(c, "multiplier").x != 0.0) ==> r == 1.0
  {
    match ParseFloat(Get(c, "multiplier"))
    case Some(m) => if m != 0.0 then m else 1.0
    case None => 1.0
  }

  /** `(config.cardRefreshIntervalSeconds || 60) * 1000`; `None` is NaN. */
  function RefreshIntervalMs(c: Config): (r: Option<real>)
    ensures !Truthy(Get(c, "cardRefreshIntervalSeconds")) ==> r == Some(60000.0)
    ensures Get(c, "cardRefreshIntervalSeconds").Num? && Get(c, "cardRefreshIntervalSeconds").x != 0.0 ==>
              r == Some(Get(c, "cardRefreshIntervalSeconds").x * 1000.0)
    ensures Get(c, "cardRefreshIntervalSeconds") == Flag(true) ==> r == Some(1000.0)
    ensures Get(c, "cardRefreshIntervalSeconds").Text? && Get(c, "cardRefreshIntervalSeconds").s != "" ==> r == None
  {
    var v := Get(c, "cardRefreshIntervalSeconds");
    if !Truthy(v) then Some(60000.0)
    else match ToNumber(v)
      case Some(seconds) => Some(seconds * 1000.0)
      case None => None
  }

  /** A price-tier limit scaled by the multiplier; an undefined or NaN limit
      is never exceeded, so both read as `None`. */
  function Limit(c: Config, key: string, multiplier: real): (r: Option<real>)
    ensures r.Some? <==> Get(c, key).Num?
    ensures r.Some? ==> r.value == Get(c, key).x * multiplier
  {
    if Get(c, key) == Undefined then None
    else match ParseFloat(Get(c, key))
      case Some(l) => Some(l * multiplier)
      case None => None
  }

  /** A configuration that sets nothing but the required keys gets the
      documented defaults once read: multiplier 100, a one-minute refresh
      interval, no ceiling, and tier limits 5, 20 and 30 scaled by 100. */
  lemma DefaultsWhenUnset(user: Config)
    requires SetConfig(user).Success?
    requires user.Keys <= {"currentEntity", "futureEntity", "durationHours"}
    ensures var c := SetConfig(user).value;
            && Multiplier(c) == 100.0
            && RefreshIntervalMs(c) == Some(60000.0)
            && MaxPrice(c) == None
            && Limit(c, "lowlimit", Multiplier(c)) == Some(500.0)
            && Limit(c, "mediumlimit", Multiplier(c)) == Some(2000.0)
            && Limit(c, "highlimit", Multiplier(c)) == Some(3000.0)
  {
    var c := SetConfig(user).value;
    assert Get(c, "multiplier") == Num(100.0);
    assert Get(c, "cardRefreshIntervalSeconds") == Num(60.0);
    assert Get(c, "maxPrice") == Undefined;
    assert Get(c, "lowlimit") == Num(5.0);
    assert Get(c, "mediumlimit") == Num(20.0);
    assert Get(c, "highlimit") == Num(30.0);
  }
}
