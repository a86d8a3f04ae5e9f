/**
 * The fan accessory: the power and rotation-speed characteristics, with the
 * rules that map a 0..100 rotation speed to the device's three speed levels
 * and back. Percentages are exact rationals (`real`); the source computes
 * 100/3 and 200/3 as doubles, which fall in the same bands of 33 and 67.
 */
module FanControl {
  import opened Wrappers
  import opened HubResponse
  import opened Platform

  // ---------------------------------------------------------------------------
  // Speed rules
  // ---------------------------------------------------------------------------

  /** The level `setFanSpeed` writes for a rotation speed: thresholds 33 and 67. */
  function SpeedLevel(value: real): (level: string)
    ensures level == "1" || level == "2" || level == "3"
  {
    if value <= 33.0 then "1"
    else if value <= 67.0 then "2"
    else "3"
  }

  /** The rotation speed `getFanSpeed` reports for a device level; anything else, or no level, reads as 0. */
  function PercentFor(speedc: Option<string>): (percent: real)
    ensures 0.0 <= percent <= 100.0
    ensures percent > 0.0 <==> speedc == Some("1") || speedc == Some("2") || speedc == Some("3")
  {
    if speedc == Some("1") then 100.0 / 3.0
    else if speedc == Some("2") then (100.0 / 3.0) * 2.0
    else if speedc == Some("3") then 100.0
    else 0.0
  }

  /** The order of the three levels (0 for anything else). */
  function LevelRank(level: string): nat {
    if level == "1" then 1 else if level == "2" then 2 else if level == "3" then 3 else 0
  }

  /** Each level is chosen on exactly its band of the scale. */
  lemma SpeedLevelBands(value: real)
    ensures SpeedLevel(value) == "1" <==> value <= 33.0
    ensures SpeedLevel(value) == "2" <==> 33.0 < value <= 67.0
    ensures SpeedLevel(value) == "3" <==> 67.0 < value
  {
  }

  /** A faster rotation speed never selects a slower level. */
  lemma SpeedLevelMonotone(a: real, b: real)
    requires a <= b
    ensures LevelRank(SpeedLevel(a)) <= LevelRank(SpeedLevel(b))
  {
  }

  /** A higher level always reads as a strictly faster rotation speed. */
  lemma PercentForIncreasing(a: string, b: string)
    requires 1 <= LevelRank(a) < LevelRank(b)
    ensures PercentFor(Some(a)) < PercentFor(Some(b))
  {
  }

  /** Levels 2 and 3 survive being read and written back. */
  lemma UpperLevelsRoundTrip(level: string)
    requires level == "2" || level == "3"
    ensures SpeedLevel(PercentFor(Some(level))) == level
  {
  }

  /** Level 1 does not: it reads as 100/3, which lies above 33 and is written back as level 2. */
  lemma LevelOneBecomesTwo()
    ensures PercentFor(Some("1")) == 100.0 / 3.0
    ensures SpeedLevel(PercentFor(Some("1"))) == "2"
  {
  }

  /** The speed patch `setFanSpeed` sends reads back as `speedc` with exactly the level chosen for `value`. */
  lemma SetSpeedPatchReadsBack(value: real)
    ensures ParseAttrPatch(AttrPatch("speedc", SpeedLevel(value))) == Some(("speedc", SpeedLevel(value)))
  {
    var level := SpeedLevel(value);
    assert level[0] != '"' && level[0] != '\\' && level[0] >= ' ';
    SpeedPatchReadsBack(level);
  }

  /** The speed shown after writing `value` and reading the level back. */
  function Displayed(value: real): real {
    PercentFor(Some(SpeedLevel(value)))
  }

  /**
   * Writing back what is shown settles after two rounds, on 200/3 or 100:
   * level 1 can never be reached that way.
   */
  lemma DisplayedSettles(value: real)
    ensures Displayed(Displayed(value)) == 200.0 / 3.0 || Displayed(Displayed(value)) == 100.0
    ensures Displayed(Displayed(Displayed(value))) == Displayed(Displayed(value))
  {
  }

  // ---------------------------------------------------------------------------
  // Snapshot guards
  // ---------------------------------------------------------------------------

  /** The snapshot exists and reports the fan on (`hub?.attributes.fanc == '1'`). */
  predicate FanOn(snapshot: Option<Hub>) {
    snapshot.Some? && snapshot.value.attributes.fanc == Some("1")
  }

  /** The snapshot exists and reports the fan off (`hub?.attributes.fanc == '0'`). */
  predicate FanOff(snapshot: Option<Hub>) {
    snapshot.Some? && snapshot.value.attributes.fanc == Some("0")
  }

  /** `hub?.attributes.speedc`. */
  function SpeedcOf(snapshot: Option<Hub>): Option<string> {
    if snapshot.Some? then snapshot.value.attributes.speedc else None
  }

  // ---------------------------------------------------------------------------
  // The accessory
  // ---------------------------------------------------------------------------

  class FanAccessory {
    const platform: RitualsGeniePlatform
    const accessory: Accessory

    constructor(platform: RitualsGeniePlatform, accessory: Accessory)
      ensures this.platform == platform && this.accessory == accessory
    {
      this.platform := platform;
      this.accessory := accessory;
    }

    /** Setting On sends exactly one power patch; the platform pulls afterwards only on a 200. */
    method SetOn(value: bool, update: Reply<()>, state: Reply<HubEnvelope>)
      modifies platform`hub, platform`sent
      ensures platform.sent == old(platform.sent)
        + UpdateTrace(UpdateForm(platform.hubHash, AttrPatch("fanc", PowerDigit(value))), update, platform.hubHash)
      ensures platform.hub == AfterUpdate(old(platform.hub), update, state)
    {
      platform.UpdateOnState(value, update, state);
    }

    /** Reading On always pulls first, then reports whether the snapshot says the fan is on. */
    method GetOn(state: Reply<HubEnvelope>) returns (on: bool)
      modifies platform`hub, platform`sent
      ensures platform.sent == old(platform.sent) + [HubStateRequest(Show(platform.hubHash))]
      ensures platform.hub == Pulled(old(platform.hub), state)
      ensures on <==> FanOn(platform.hub)
    {
      platform.GetStateForHub(state);
      on := platform.hub.Some? && platform.hub.value.attributes.fanc == Some("1");
    }

    /**
     * Setting the speed sends one speed patch with the level for `value`, but
     * only when the cached snapshot (not a fresh pull) says the fan is on;
     * otherwise nothing is sent and nothing changes.
     */
    method SetFanSpeed(value: real, update: Reply<()>, state: Reply<HubEnvelope>)
      modifies platform`hub, platform`sent
      ensures FanOn(old(platform.hub)) ==>
        platform.sent == old(platform.sent)
          + UpdateTrace(UpdateForm(platform.hubHash, AttrPatch("speedc", SpeedLevel(value))), update, platform.hubHash)
        && platform.hub == AfterUpdate(old(platform.hub), update, state)
      ensures !FanOn(old(platform.hub)) ==>
        platform.sent == old(platform.sent) && platform.hub == old(platform.hub)
    {
      if platform.hub.Some? && platform.hub.value.attributes.fanc == Some("1") {
        var apiFanSpeed := platform.hub.value.attributes.speedc.GetOr("1");
        if value <= 33.0 {
          apiFanSpeed := "1";
        } else if value > 33.0 && value <= 67.0 {
          apiFanSpeed := "2";
        } else if value > 67.0 {
          apiFanSpeed := "3";
        }
        platform.UpdateFanSpeed(apiFanSpeed, update, state);
      }
    }

    /**
     * Reading the speed gives 0 without a pull when the cached snapshot says
     * the fan is off; otherwise it pulls and maps the pulled level, without
     * looking at the pulled power state.
     */
    method GetFanSpeed(state: Reply<HubEnvelope>) returns (speed: real)
      modifies platform`hub, platform`sent
      ensures 0.0 <= speed <= 100.0
      ensures FanOff(old(platform.hub)) ==>
        speed == 0.0 && platform.sent == old(platform.sent) && platform.hub == old(platform.hub)
      ensures !FanOff(old(platform.hub)) ==>
        platform.sent == old(platform.sent) + [HubStateRequest(Show(platform.hubHash))]
        && platform.hub == Pulled(old(platform.hub), state)
        && speed == PercentFor(SpeedcOf(platform.hub))
    {
      if platform.hub.Some? && platform.hub.value.attributes.fanc == Some("0") {
        speed := 0.0;
      } else {
        platform.GetStateForHub(state);
        var apiFanSpeed := if platform.hub.Some? then platform.hub.value.attributes.speedc else None;
        speed := PercentFor(apiFanSpeed);
      }
    }
  }

  /**
   * Startup on an empty store, where login grants "ah1", the hub list's first
   * hub is "h1" and the pulled state reports the fan off at level 2: both keys
   * are persisted, the requests go login, hub list, state (and one more state
   * pull for the On read), and the accessory reads off with speed 0.
   */
  method FreshStoreStartup() returns (on: bool, speed: real, stored: map<string, string>, ghost requests: seq<Request>)
    ensures !on && speed == 0.0
    ensures stored == map[AccountKey := "ah1", HubKey := "h1"]
    ensures requests == [LoginRequest(LoginForm("user@example.com", "secret")), ListHubsRequest("ah1"),
                         HubStateRequest("h1"), HubStateRequest("h1")]
  {
    var platform := new RitualsGeniePlatform("user@example.com", "secret", None, "fan-uuid", map[]);
    var listed := Hub("serial", "h1", 1, None, "", "", Attributes(None, None, Some("0"), None), None);
    var pulled := Hub("serial", "h1", 1, None, "", "", Attributes(None, Some("2"), Some("0"), None), None);
    var stateReply := Answered(200, Some(HubEnvelope(Some(pulled))));
    var fan := platform.OnDidFinishLaunching(
      Answered(200, Some(LoginResponse(Some("ah1")))),
      Answered(200, Some([HubEnvelope(Some(listed))])),
      stateReply);
    assert platform.registered == [Accessory("Fan", "fan-uuid", None)];
    var accessory := new FanAccessory(platform, fan);
    on := accessory.GetOn(stateReply);
    speed := accessory.GetFanSpeed(stateReply);
    stored := platform.storage;
    requests := platform.sent;
  }
}
