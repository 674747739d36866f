/**
 * Remote range test: a text message equal to the trigger word on the
 * configured channel enables the range-test module in the saved config and
 * reboots the node; after the configured duration the test disables itself.
 * A new test may not start until the rate-limiting interval has passed since
 * boot. Sends, config saves and reboots are recorded as effects; the time
 * (`millis()`) is a parameter.
 */
module RangeTest {
  import opened Common
  import opened DIY

  const MsInMinute: int := 60 * 1000
  const RebootDelayMs: int := 15 * 1000

  /** The build-time constants REMOTE_RANGETEST_DURATION, _INTERVAL, _TRIGGER and _LISTEN_CHANINDEX. */
  datatype RangeConfig = RangeConfig(durationMinutes: nat, intervalMinutes: nat, triggerWord: string, channelIndex: nat)

  datatype RangeEffect =
    | SendText(message: string, channel: nat, dest: nat)
    | SaveModuleConfig
    | Reboot

  /** The OSThread timer: disabled, or due after `intervalMs`. */
  datatype Timer = Disabled | Armed(intervalMs: int)

  /**
   * `enabled` is `moduleConfig.range_test.enabled`, the saved setting;
   * `restarted` records that the device has rebooted and this instance is gone.
   */
  datatype RangeState = RangeState(
    enabled: bool, ranRangeTest: bool, waitingToReboot: bool, timer: Timer,
    effects: seq<RangeEffect>, restarted: bool)

  datatype TextPacket = TextPacket(channel: nat, from: nat, payload: seq<char>)

  const AlreadyRunningReply: string := "Range test is already running"

  function TooSoonReply(cfg: RangeConfig, now: u32): string
    requires (now as int) < cfg.intervalMinutes * MsInMinute
  {
    "Too soon for another range test. " + "Try again in "
      + NatToString(cfg.intervalMinutes - now as int / MsInMinute) + " minutes."
  }

  function StartReply(cfg: RangeConfig): string
  {
    "About to begin the range test. " + "Please enable the range test module in settings. "
      + "The test will run for " + IntToString(cfg.durationMinutes) + " minutes."
  }

  /** The constructor: `configEnabled` is the saved setting found at boot. */
  function Boot(cfg: RangeConfig, configEnabled: bool): (s: RangeState)
    ensures s.enabled == configEnabled && s.ranRangeTest == configEnabled && !s.waitingToReboot
    ensures s.timer.Armed? <==> configEnabled
    ensures configEnabled ==> s.timer.intervalMs == cfg.durationMinutes * MsInMinute
    ensures s.effects == [] && !s.restarted
  {
    if configEnabled then RangeState(true, true, false, Armed(cfg.durationMinutes * MsInMinute), [], false)
    else RangeState(false, false, false, Disabled, [], false)
  }

  /** Whether beginRangeTest refuses: a test is already enabled, or one ran since boot and the interval has not yet passed. */
  predicate Refuses(cfg: RangeConfig, s: RangeState, now: u32)
  {
    s.enabled || (s.ranRangeTest && (now as int) < cfg.intervalMinutes * MsInMinute)
  }

  /** beginRangeTest: exactly one reply to the requester, and a state change only when the test is started. */
  function Begin(cfg: RangeConfig, s: RangeState, informNode: nat, informViaChannel: nat, now: u32): (r: RangeState)
    ensures |r.effects| > |s.effects| && r.effects[..|s.effects|] == s.effects
    ensures r.effects[|s.effects|].SendText? && r.effects[|s.effects|].channel == informViaChannel
      && r.effects[|s.effects|].dest == informNode
    ensures Refuses(cfg, s, now) ==> r.(effects := s.effects) == s && |r.effects| == |s.effects| + 1
    ensures !Refuses(cfg, s, now) ==>
      && r.enabled && r.waitingToReboot && r.timer == Armed(RebootDelayMs)
      && r.ranRangeTest == s.ranRangeTest && r.restarted == s.restarted
      && r.effects == s.effects + [SendText(StartReply(cfg), informViaChannel, informNode), SaveModuleConfig]
  {
    if s.enabled then
      s.(effects := s.effects + [SendText(AlreadyRunningReply, informViaChannel, informNode)])
    else if s.ranRangeTest && (now as int) < cfg.intervalMinutes * MsInMinute then
      s.(effects := s.effects + [SendText(TooSoonReply(cfg, now), informViaChannel, informNode)])
    else
      s.(effects := s.effects + [SendText(StartReply(cfg), informViaChannel, informNode), SaveModuleConfig],
         enabled := true, waitingToReboot := true, timer := Armed(RebootDelayMs))
  }

  /** handleReceived: STOP exactly for the trigger word, compared ignoring case, on the listening channel. */
  function Received(cfg: RangeConfig, s: RangeState, mp: TextPacket, now: u32): (r: (RangeState, ProcessMessage))
    ensures r.1 == Stop <==> mp.channel == cfg.channelIndex && Matches(CString(mp.payload), cfg.triggerWord, false)
    ensures r.1 == Continue ==> r.0 == s
    ensures r.1 == Stop ==> r.0 == Begin(cfg, s, mp.from, cfg.channelIndex, now)
  {
    if mp.channel == cfg.channelIndex && Matches(CString(mp.payload), cfg.triggerWord, false) then
      (Begin(cfg, s, mp.from, cfg.channelIndex, now), Stop)
    else (s, Continue)
  }

  /**
   * runOnce. `canRestart` says whether the platform has a restart call
   * (ESP32 and nRF52); elsewhere the reboot request falls through.
   */
  function Tick(s: RangeState, canRestart: bool): (r: RangeState)
    ensures s.waitingToReboot && canRestart ==> r.restarted && r.effects == s.effects + [Reboot]
    ensures !r.restarted ==> !r.enabled && r.timer == Disabled
    ensures !r.restarted ==> r.effects == s.effects + (if s.enabled then [SaveModuleConfig] else [])
    ensures r.enabled == s.enabled || !r.enabled
  {
    if s.waitingToReboot && canRestart then
      s.(effects := s.effects + [Reboot], restarted := true)
    else if s.enabled then
      s.(enabled := false, effects := s.effects + [SaveModuleConfig], timer := Disabled)
    else
      s.(timer := Disabled)
  }

  /** The "too soon" window is measured from boot: after it, a test starts however recently the last one ended. */
  lemma RateLimitFromBoot(cfg: RangeConfig, s: RangeState, node: nat, via: nat, now: u32)
    requires !s.enabled
    ensures Begin(cfg, s, node, via, now).enabled
      <==> (!s.ranRangeTest || now as int >= cfg.intervalMinutes * MsInMinute)
  {
  }

  /**
   * The whole remote cycle on a platform that can restart: from a boot with
   * the test disabled, the trigger word enables it and reboots; the next
   * boot runs it for the duration, and the following timer tick disables it
   * again and saves that.
   */
  lemma RemoteCycle(cfg: RangeConfig, text: string, from: nat, t1: u32)
    requires Matches(CString(text), cfg.triggerWord, false)
    ensures var s0 := Boot(cfg, false);
      var received := Received(cfg, s0, TextPacket(cfg.channelIndex, from, text), t1);
      var s1, res := received.0, received.1;
      var s2 := Tick(s1, true);
      var s3 := Boot(cfg, s2.enabled);
      var s4 := Tick(s3, true);
      && res == Stop && s2.restarted && s2.enabled
      && s2.effects == [SendText(StartReply(cfg), cfg.channelIndex, from), SaveModuleConfig, Reboot]
      && s3.timer == Armed(cfg.durationMinutes * MsInMinute) && s3.ranRangeTest
      && !s4.enabled && s4.timer == Disabled && s4.effects == [SaveModuleConfig]
  {
  }

  /** Without a restart call, the reboot tick falls through and switches the just-enabled test off again. */
  lemma NoRestartUndoesStart(cfg: RangeConfig, s: RangeState, node: nat, via: nat, now: u32)
    requires !Refuses(cfg, s, now) && !s.restarted
    ensures var r := Tick(Begin(cfg, s, node, via, now), false);
      !r.enabled && !r.restarted && r.timer == Disabled
      && r.effects == s.effects + [SendText(StartReply(cfg), via, node), SaveModuleConfig, SaveModuleConfig]
  {
  }

  /** After a refusal nothing but the one reply has happened, so repeated requests cannot start a test early. */
  lemma {:induction false} RepeatedRequestsWhileRunning(cfg: RangeConfig, s: RangeState, times: nat, now: u32)
    requires s.enabled
    ensures var r := BeginTimes(cfg, s, times, now);
      r.(effects := s.effects) == s && |r.effects| == |s.effects| + times
  {
    if times > 0 {
      RepeatedRequestsWhileRunning(cfg, s, times - 1, now);
    }
  }

  function BeginTimes(cfg: RangeConfig, s: RangeState, times: nat, now: u32): RangeState
  {
    if times == 0 then s else Begin(cfg, BeginTimes(cfg, s, times - 1, now), 0, cfg.channelIndex, now)
  }

  /** RemoteRangetestModule: the module's flags, the saved setting and the thread timer. */
  class RemoteRangetestModule {
    const cfg: RangeConfig
    const canRestart: bool
    var rangeTestEnabled: bool
    var ranRangeTest: bool
    var waitingToReboot: bool
    var timer: Timer
    var effects: seq<RangeEffect>
    var restarted: bool

    function State(): RangeState
      reads this
    {
      RangeState(rangeTestEnabled, ranRangeTest, waitingToReboot, timer, effects, restarted)
    }

    constructor (config: RangeConfig, configEnabled: bool, platformCanRestart: bool)
      ensures cfg == config && canRestart == platformCanRestart
      ensures State() == Boot(config, configEnabled)
    {
      cfg := config;
      canRestart := platformCanRestart;
      rangeTestEnabled := configEnabled;
      ranRangeTest := false;
      waitingToReboot := false;
      effects := [];
      restarted := false;
      timer := Disabled;
      if configEnabled {
        ranRangeTest := true;
        timer := Armed(config.durationMinutes * MsInMinute);
      }
    }

    method HandleReceived(mp: TextPacket, now: u32) returns (r: ProcessMessage)
      requires !restarted
      modifies this
      ensures (State(), r) == Received(cfg, old(State()), mp, now)
    {
      var text := CString(mp.payload);
      if mp.channel == cfg.channelIndex {
        var matched := StringsMatch(text, cfg.triggerWord, false);
        if matched {
          BeginRangeTest(mp.from, cfg.channelIndex, now);
          return Stop;
        }
      }
      return Continue;
    }

    method BeginRangeTest(informNode: nat, informViaChannel: nat, now: u32)
      requires !restarted
      modifies this
      ensures State() == Begin(cfg, old(State()), informNode, informViaChannel, now)
    {
      if rangeTestEnabled {
        effects := effects + [SendText(AlreadyRunningReply, informViaChannel, informNode)];
        return;
      }
      if ranRangeTest && (now as int) < cfg.intervalMinutes * MsInMinute {
        var reply := "Too soon for another range test. ";
        reply := reply + "Try again in ";
        reply := reply + NatToString(cfg.intervalMinutes - now as int / MsInMinute);
        reply := reply + " minutes.";
        effects := effects + [SendText(reply, informViaChannel, informNode)];
        return;
      }
      var reply := "About to begin the range test. ";
      reply := reply + "Please enable the range test module in settings. ";
      reply := reply + "The test will run for ";
      reply := reply + IntToString(cfg.durationMinutes);
      reply := reply + " minutes.";
      effects := effects + [SendText(reply, informViaChannel, informNode)];
      rangeTestEnabled := true;
      effects := effects + [SaveModuleConfig];
      waitingToReboot := true;
      timer := Armed(RebootDelayMs);
    }

    method RunOnce()
      requires !restarted
      modifies this
      ensures State() == Tick(old(State()), canRestart)
    {
      if waitingToReboot && canRestart {
        effects := effects + [Reboot];
        restarted := true;
        return;
      }
      if rangeTestEnabled {
        rangeTestEnabled := false;
        effects := effects + [SaveModuleConfig];
        timer := Disabled;
        return;
      }
      timer := Disabled;
    }
  }
}
