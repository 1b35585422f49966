/**
 * The Details screen's logic: the wind-speed classification, the narration
 * built for one forecast entry, and the play / pause / resume state of the
 * narrated cards.
 *
 * Speech synthesis is outside the model: pressing a card returns the speech
 * action it asks for, and the engine's `onStart`, `onDone` and `onStopped`
 * callbacks are separate events. `onStart` is told which `speak` call
 * registered it, because the two calls register different closures.
 */
module DetailsScreen {
  import opened Wrappers
  import opened Forecast

  // ---------------------------------------------------------------------------
  // Wind speed
  // ---------------------------------------------------------------------------

  /** The seven labels, calmest first. */
  datatype WindLabel = Calm | Light | Moderate | Strong | VeryStrong | Violent | Storm

  function LabelText(l: WindLabel): string
  {
    match l
    case Calm => "Vento calmo"
    case Light => "Vento leve"
    case Moderate => "Vento moderado"
    case Strong => "Vento forte"
    case VeryStrong => "Vento muito forte"
    case Violent => "Vento violento"
    case Storm => "Tempestade"
  }

  /** The position of a label on the calm-to-storm scale. */
  function Rank(l: WindLabel): nat
  {
    match l
    case Calm => 0
    case Light => 1
    case Moderate => 2
    case Strong => 3
    case VeryStrong => 4
    case Violent => 5
    case Storm => 6
  }

  /** The speeds (m/s) from which each label after the first applies. */
  const WindThresholds: seq<real> := [1.0, 5.0, 11.0, 19.0, 28.0, 38.0]

  /** How many of the thresholds `speed` has reached. */
  function Reached(thresholds: seq<real>, speed: real): (r: nat)
    ensures r <= |thresholds|
  {
    if thresholds == [] then 0
    else (if thresholds[0] <= speed then 1 else 0) + Reached(thresholds[1..], speed)
  }

  /**
   * `classifyWindSpeed`: the label's rank is the number of thresholds the
   * speed has reached, so a speed equal to a threshold gets the next label.
   */
  function ClassifyWindSpeed(speed: real): (r: WindLabel)
    ensures Rank(r) == Reached(WindThresholds, speed)
  {
    ReachedWindThresholds(speed);
    if speed < 1.0 then Calm
    else if speed < 5.0 then Light
    else if speed < 11.0 then Moderate
    else if speed < 19.0 then Strong
    else if speed < 28.0 then VeryStrong
    else if speed < 38.0 then Violent
    else Storm
  }

  /** The thresholds are increasing, so `speed` reached exactly the first `k` of them for some `k`. */
  lemma ReachedWindThresholds(speed: real)
    ensures Reached(WindThresholds, speed) ==
      if speed < 1.0 then 0 else if speed < 5.0 then 1 else if speed < 11.0 then 2
      else if speed < 19.0 then 3 else if speed < 28.0 then 4 else if speed < 38.0 then 5 else 6
  {
    var t := WindThresholds;
    assert Reached(t[6..], speed) == 0;
    assert Reached(t[5..], speed) == (if 38.0 <= speed then 1 else 0) by { assert t[5..][1..] == t[6..]; }
    assert Reached(t[4..], speed) == (if 28.0 <= speed then 1 else 0) + Reached(t[5..], speed) by { assert t[4..][1..] == t[5..]; }
    assert Reached(t[3..], speed) == (if 19.0 <= speed then 1 else 0) + Reached(t[4..], speed) by { assert t[3..][1..] == t[4..]; }
    assert Reached(t[2..], speed) == (if 11.0 <= speed then 1 else 0) + Reached(t[3..], speed) by { assert t[2..][1..] == t[3..]; }
    assert Reached(t[1..], speed) == (if 5.0 <= speed then 1 else 0) + Reached(t[2..], speed) by { assert t[1..][1..] == t[2..]; }
    assert Reached(t, speed) == (if 1.0 <= speed then 1 else 0) + Reached(t[1..], speed);
  }

  lemma {:induction false} ReachedMonotone(thresholds: seq<real>, a: real, b: real)
    requires a <= b
    ensures Reached(thresholds, a) <= Reached(thresholds, b)
  {
    if thresholds != [] {
      ReachedMonotone(thresholds[1..], a, b);
    }
  }

  /** A higher speed never gets a calmer label. */
  lemma ClassifyWindSpeedMonotone(a: real, b: real)
    requires a <= b
    ensures Rank(ClassifyWindSpeed(a)) <= Rank(ClassifyWindSpeed(b))
  {
    ReachedMonotone(WindThresholds, a, b);
  }

  /** Each label names a different rank and a different text. */
  lemma LabelsAreDistinct(l1: WindLabel, l2: WindLabel)
    ensures Rank(l1) == Rank(l2) <==> l1 == l2
    ensures LabelText(l1) == LabelText(l2) <==> l1 == l2
  {
  }

  /** A speed that gets each label: the label's threshold, and 0 for the calmest. */
  function LowestSpeed(l: WindLabel): real
  {
    match l
    case Calm => 0.0
    case Light => 1.0
    case Moderate => 5.0
    case Strong => 11.0
    case VeryStrong => 19.0
    case Violent => 28.0
    case Storm => 38.0
  }

  /**
   * Every label is reached, so the classifier is onto the seven labels; each
   * label after the first starts exactly at its threshold.
   */
  lemma EveryLabelReached(l: WindLabel)
    ensures ClassifyWindSpeed(LowestSpeed(l)) == l
    ensures l != Calm ==> forall w :: w < LowestSpeed(l) ==> Rank(ClassifyWindSpeed(w)) < Rank(l)
  {
    forall w | l != Calm && w < LowestSpeed(l)
      ensures Rank(ClassifyWindSpeed(w)) < Rank(l)
    {
      ReachedWindThresholds(w);
    }
  }

  // ---------------------------------------------------------------------------
  // Narration of one entry
  // ---------------------------------------------------------------------------

  /** One sentence of the narrated text, before locale and `toFixed` formatting. */
  datatype NarrationLine =
    | DateLine(dt: int)
    | TimeLine(dt: int)
    | TemperatureLine(temp: real, tempMin: real, tempMax: real)
    | HumidityLine(humidity: int)
    | WindLine(windLabel: WindLabel)
    | RainLine(rainMillimetres: real)
    | SnowLine(snowMillimetres: real)
    | VisibilityLine(metres: int)
    | ConditionLine(description: string)

  type Narration = seq<NarrationLine>

  /**
   * The `content` built for a card. It is absent when the entry has no weather
   * element: reading `item.weather[0].description` then throws.
   */
  function DetailsNarration(item: ForecastItem): (r: Option<Narration>)
    ensures r.None? <==> item.weather == []
    ensures r.Some? ==>
      && ((exists k :: 0 <= k < |r.value| && r.value[k].RainLine?) <==> item.rain.Some?)
      && ((exists k :: 0 <= k < |r.value| && r.value[k].SnowLine?) <==> item.snow.Some?)
      && (forall k :: 0 <= k < |r.value| && r.value[k].RainLine? ==> r.value[k].rainMillimetres == item.rain.value)
      && (forall k :: 0 <= k < |r.value| && r.value[k].SnowLine? ==> r.value[k].snowMillimetres == item.snow.value)
      && WindLine(ClassifyWindSpeed(item.wind.speed)) in r.value
      && r.value[|r.value| - 1] == ConditionLine(item.weather[0].description)
  {
    if item.weather == [] then None
    else
      var rain := if item.rain.Some? then [RainLine(item.rain.value)] else [];
      var snow := if item.snow.Some? then [SnowLine(item.snow.value)] else [];
      var head := [DateLine(item.dt), TimeLine(item.dt),
                   TemperatureLine(item.main.temp, item.main.tempMin, item.main.tempMax),
                   HumidityLine(item.main.humidity), WindLine(ClassifyWindSpeed(item.wind.speed))];
      var tail := [VisibilityLine(item.visibility), ConditionLine(item.weather[0].description)];
      var r := head + rain + snow + tail;
      assert r[4] == WindLine(ClassifyWindSpeed(item.wind.speed));
      assert item.rain.Some? ==> r[5].RainLine?;
      assert item.snow.Some? ==> r[5 + |rain|].SnowLine?;
      Some(r)
  }

  // ---------------------------------------------------------------------------
  // The narration state of the cards
  // ---------------------------------------------------------------------------

  /** Which `speak` call registered a callback: the resume call, or a fresh reading of card `index`. */
  datatype Utterance = Resume | Fresh(index: nat)

  /** What a card press asks of the speech engine. */
  datatype SpeechAction =
    | Speak(content: Narration, utterance: Utterance)
    | Stop
    | StopAndSpeak(content: Narration, utterance: Utterance)

  /** The `activeCard`, `paused` and `lastContent` state of the screen. */
  class DetailsReader {
    var activeCard: Option<nat>
    var paused: bool
    var lastContent: Narration

    /** Only the active card can be paused. */
    ghost predicate Valid()
      reads this
    {
      paused ==> activeCard.Some?
    }

    constructor ()
      ensures Valid() && activeCard == None && !paused && lastContent == []
    {
      activeCard, paused, lastContent := None, false, [];
    }

    /** `readDetails(item, index)`: the press handler of card `index`. */
    method ReadDetails(item: ForecastItem, index: nat) returns (action: SpeechAction)
      requires Valid()
      modifies this
      ensures Valid()
      ensures old(activeCard) == Some(index) && old(paused) ==>
        && action == Speak(old(lastContent), Resume)
        && activeCard == old(activeCard) && paused && lastContent == old(lastContent)
      ensures old(activeCard) == Some(index) && !old(paused) ==>
        && action == Stop
        && activeCard == old(activeCard) && paused && lastContent == old(lastContent)
      ensures old(activeCard) != Some(index) ==>
        && activeCard == old(activeCard) && paused == old(paused)
        && match DetailsNarration(item)
           case Some(content) => action == StopAndSpeak(content, Fresh(index)) && lastContent == content
           case None => action == Stop && lastContent == old(lastContent)
    {
      if activeCard == Some(index) && paused {
        return Speak(lastContent, Resume);
      }
      if activeCard == Some(index) && !paused {
        paused := true;
        return Stop;
      }
      var content := DetailsNarration(item);
      if content.None? {
        return Stop;
      }
      lastContent := content.value;
      action := StopAndSpeak(content.value, Fresh(index));
    }

    /** `onStart` of the utterance registered by `utterance`. */
    method OnStart(utterance: Utterance)
      requires Valid()
      modifies this
      ensures Valid()
      ensures !paused && lastContent == old(lastContent)
      ensures activeCard == if utterance.Fresh? then Some(utterance.index) else old(activeCard)
    {
      match utterance {
        case Resume =>
          paused := false;
        case Fresh(index) =>
          activeCard := Some(index);
          paused := false;
      }
    }

    /** `onDone` of either utterance. */
    method OnDone()
      requires Valid()
      modifies this
      ensures Valid()
      ensures activeCard == None && !paused && lastContent == old(lastContent)
    {
      activeCard := None;
      paused := false;
    }

    /** `onStopped` of either utterance. */
    method OnStopped()
      requires Valid()
      modifies this
      ensures Valid()
      ensures activeCard == None && !paused && lastContent == old(lastContent)
    {
      activeCard := None;
      paused := false;
    }
  }
}
