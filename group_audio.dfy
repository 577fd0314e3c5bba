/**
 * The group `volume` and `mute` subcommands (internal/cli/group_audio.go) against the
 * four-operation group-audio client of lines 13-18. The client is a class holding the group's
 * volume and mute state and the log of the calls it received; each call may fail, and a fault
 * of the caller's choosing stands for that failure. Validating the target and creating the
 * client are outside the shown code: their outcomes are parameters too.
 */
module GroupAudio {
  import opened Wrappers
  import opened Text

  /** One call a group-audio client receives. */
  datatype Call = GetVolume | SetVolume(volume: int) | GetMute | SetMute(mute: bool)

  /** A group coordinator's audio state and the calls it has received, oldest first. */
  datatype Device = Device(volume: int, mute: bool, calls: seq<Call>)

  /** The subcommands: `volume get|set`, `mute get|on|off|toggle`, and the hidden `mute set`. */
  datatype Command =
    | VolumeGet
    | VolumeSet(arg: string)
    | MuteGet
    | MuteOn
    | MuteOff
    | MuteToggle
    | MuteSet(word: string)

  /**
   * Where a run fails: target validation, client creation, and the first (get) and second
   * (set) device call, `read` and `write`; None means that step succeeds.
   */
  datatype Faults = Faults(target: Option<string>, connect: Option<string>, read: Option<string>, write: Option<string>)

  const NoFaults: Faults := Faults(None, None, None, None)

  datatype Error =
    | TargetError(detail: string)
    | BadVolume(err: NumError)
    | InvalidValue(word: string)
    | ConnectError(detail: string)
    | DeviceError(detail: string)

  /** What a subcommand prints on success: the volume, the mute state, or nothing. */
  datatype Reply = Volume(volume: int) | Muted(mute: bool) | Done

  datatype Outcome = Outcome(device: Device, result: Result<Reply, Error>)

  /** The hidden `mute set` word: on/true/1 mean mute, off/false/0 mean unmute, nothing else is accepted. */
  function ParseMuteWord(word: string): (r: Option<bool>)
    ensures r == Some(true) <==> word in {"on", "true", "1"}
    ensures r == Some(false) <==> word in {"off", "false", "0"}
    ensures r.None? <==> word !in {"on", "true", "1", "off", "false", "0"}
  {
    if word == "on" || word == "true" || word == "1" then Some(true)
    else if word == "off" || word == "false" || word == "0" then Some(false)
    else None
  }

  // The device's answer to each call. A failed set leaves the state as it was.

  function DoGetVolume(d: Device, fault: Option<string>): Outcome
  {
    Outcome(d.(calls := d.calls + [GetVolume]), if fault.Some? then Failure(DeviceError(fault.value)) else Success(Volume(d.volume)))
  }

  function DoSetVolume(d: Device, v: int, fault: Option<string>): Outcome
  {
    if fault.Some? then Outcome(d.(calls := d.calls + [SetVolume(v)]), Failure(DeviceError(fault.value)))
    else Outcome(Device(v, d.mute, d.calls + [SetVolume(v)]), Success(Done))
  }

  function DoGetMute(d: Device, fault: Option<string>): Outcome
  {
    Outcome(d.(calls := d.calls + [GetMute]), if fault.Some? then Failure(DeviceError(fault.value)) else Success(Muted(d.mute)))
  }

  function DoSetMute(d: Device, m: bool, fault: Option<string>): Outcome
  {
    if fault.Some? then Outcome(d.(calls := d.calls + [SetMute(m)]), Failure(DeviceError(fault.value)))
    else Outcome(Device(d.volume, m, d.calls + [SetMute(m)]), Success(Done))
  }

  /** The device calls a subcommand makes once it holds a client. */
  function Connected(cmd: Command, d: Device, f: Faults, v: int, m: bool): Outcome
  {
    match cmd
    case VolumeGet => DoGetVolume(d, f.read)
    case VolumeSet(_) => DoSetVolume(d, v, f.write)
    case MuteGet => DoGetMute(d, f.read)
    case MuteOn => DoSetMute(d, true, f.write)
    case MuteOff => DoSetMute(d, false, f.write)
    case MuteToggle =>
      var read := DoGetMute(d, f.read);
      if read.result.Failure? then read
      else DoSetMute(read.device, !d.mute, f.write)
    case MuteSet(_) => DoSetMute(d, m, f.write)
  }

  /**
   * One subcommand run: validate the target, parse the argument (volume set, mute set),
   * create the client, then make the device calls.
   */
  function Run(cmd: Command, d: Device, f: Faults): (o: Outcome)
    ensures |d.calls| <= |o.device.calls| <= |d.calls| + 2 && o.device.calls[..|d.calls|] == d.calls
    ensures o.result.Success? ==> f.target.None? && f.connect.None?
  {
    if f.target.Some? then Outcome(d, Failure(TargetError(f.target.value)))
    else if cmd.VolumeSet? && Atoi(cmd.arg).Failure? then Outcome(d, Failure(BadVolume(Atoi(cmd.arg).error)))
    else if cmd.MuteSet? && ParseMuteWord(cmd.word).None? then Outcome(d, Failure(InvalidValue(cmd.word)))
    else if f.connect.Some? then Outcome(d, Failure(ConnectError(f.connect.value)))
    else
      var v := if cmd.VolumeSet? then Atoi(cmd.arg).value else 0;
      var m := if cmd.MuteSet? then ParseMuteWord(cmd.word).value else false;
      Connected(cmd, d, f, v, m)
  }

  /** Every subcommand validates the target first: on failure there is no client and no call. */
  lemma TargetCheckedFirst(cmd: Command, d: Device, f: Faults)
    requires f.target.Some?
    ensures Run(cmd, d, f) == Outcome(d, Failure(TargetError(f.target.value)))
  {
  }

  /** When the client cannot be created, no call is made and nothing changes. */
  lemma NoClientNoCalls(cmd: Command, d: Device, f: Faults)
    requires f.connect.Some?
    ensures Run(cmd, d, f).device == d && Run(cmd, d, f).result.Failure?
  {
  }

  /**
   * `volume set` rejects an argument Atoi rejects before creating the client; otherwise it
   * passes the parsed integer unchanged to the single SetGroupVolume call.
   */
  lemma VolumeSetPassesValue(arg: string, d: Device, f: Faults)
    requires f.target.None?
    ensures Atoi(arg).Failure? ==> Run(VolumeSet(arg), d, f) == Outcome(d, Failure(BadVolume(Atoi(arg).error)))
    ensures Atoi(arg).Success? && f.connect.None? ==>
      && Run(VolumeSet(arg), d, f).device.calls == d.calls + [SetVolume(Atoi(arg).value)]
      && (f.write.None? ==> Run(VolumeSet(arg), d, f) == Outcome(Device(Atoi(arg).value, d.mute, d.calls + [SetVolume(Atoi(arg).value)]), Success(Done)))
  {
  }

  /** A decimal argument sets exactly that volume; no range check is made. */
  lemma VolumeSetDecimal(n: int, d: Device)
    requires MinInt64 <= n <= MaxInt64
    ensures Run(VolumeSet(FormatInt(n)), d, NoFaults).device == Device(n, d.mute, d.calls + [SetVolume(n)])
  {
    AtoiFormatInt(n);
  }

  /**
   * A volume whose digits overflow before a non-digit ("99999999999999999999x") is refused as
   * out of range, before the client is created and with no call made.
   */
  lemma VolumeSetOverflow(arg: string, d: Device, f: Faults)
    requires |arg| == 21 && arg[20] == 'x' && forall k :: 0 <= k < 20 ==> arg[k] == '9'
    requires f.target.None?
    ensures Run(VolumeSet(arg), d, f) == Outcome(d, Failure(BadVolume(Range(arg))))
  {
    AtoiOverflowBeforeSyntax(arg);
  }

  /** `volume get` and `mute get` only read: one get call, state unchanged, the state reported. */
  lemma GetsOnlyRead(cmd: Command, d: Device, f: Faults)
    requires cmd == VolumeGet || cmd == MuteGet
    requires f.target.None? && f.connect.None?
    ensures var o := Run(cmd, d, f);
      && o.device.volume == d.volume && o.device.mute == d.mute
      && o.device.calls == d.calls + [if cmd == VolumeGet then GetVolume else GetMute]
      && (f.read.None? ==> o.result == Success(if cmd == VolumeGet then Volume(d.volume) else Muted(d.mute)))
  {
  }

  /** `mute on` mutes, `mute off` unmutes, and the volume is left alone. */
  lemma MuteOnOff(d: Device)
    ensures Run(MuteOn, d, NoFaults) == Outcome(Device(d.volume, true, d.calls + [SetMute(true)]), Success(Done))
    ensures Run(MuteOff, d, NoFaults) == Outcome(Device(d.volume, false, d.calls + [SetMute(false)]), Success(Done))
  {
  }

  /**
   * `mute toggle` reads the mute state and writes its negation; when the read fails no set
   * is issued.
   */
  lemma ToggleNegates(d: Device, f: Faults)
    requires f.target.None? && f.connect.None?
    ensures f.read.Some? ==> Run(MuteToggle, d, f) == Outcome(d.(calls := d.calls + [GetMute]), Failure(DeviceError(f.read.value)))
    ensures f.read.None? ==> Run(MuteToggle, d, f).device.calls == d.calls + [GetMute, SetMute(!d.mute)]
    ensures f.read.None? && f.write.None? ==> Run(MuteToggle, d, f).device.mute == !d.mute
  {
  }

  /** Toggling twice restores the mute state and leaves the volume alone. */
  lemma ToggleTwiceRestores(d: Device)
    ensures var once := Run(MuteToggle, d, NoFaults).device;
      var twice := Run(MuteToggle, once, NoFaults).device;
      twice.mute == d.mute && twice.volume == d.volume
  {
    ToggleNegates(d, NoFaults);
    ToggleNegates(Run(MuteToggle, d, NoFaults).device, NoFaults);
  }

  /**
   * The hidden `mute set` rejects an unknown word before creating the client; a known word
   * does what `mute on` or `mute off` does.
   */
  lemma MuteSetAsOnOff(word: string, d: Device, f: Faults)
    ensures ParseMuteWord(word).None? && f.target.None? ==> Run(MuteSet(word), d, f) == Outcome(d, Failure(InvalidValue(word)))
    ensures ParseMuteWord(word) == Some(true) ==> Run(MuteSet(word), d, f) == Run(MuteOn, d, f)
    ensures ParseMuteWord(word) == Some(false) ==> Run(MuteSet(word), d, f) == Run(MuteOff, d, f)
  {
  }

  /** Volume subcommands never change the mute state, and mute subcommands never change the volume. */
  lemma NothingElseChanges(cmd: Command, d: Device, f: Faults)
    ensures cmd.VolumeGet? || cmd.VolumeSet? ==> Run(cmd, d, f).device.mute == d.mute
    ensures !(cmd.VolumeGet? || cmd.VolumeSet?) ==> Run(cmd, d, f).device.volume == d.volume
  {
  }

  /** A group coordinator as a group-audio client. */
  class Coordinator {
    var volume: int
    var mute: bool
    var calls: seq<Call>

    constructor (volume: int, mute: bool)
      ensures State() == Device(volume, mute, [])
    {
      this.volume := volume;
      this.mute := mute;
      calls := [];
    }

    function State(): Device
      reads this
    {
      Device(volume, mute, calls)
    }

    method GetGroupVolume(fault: Option<string>) returns (r: Result<int, string>)
      modifies this
      ensures volume == old(volume) && mute == old(mute) && calls == old(calls) + [GetVolume]
      ensures r == if fault.Some? then Failure(fault.value) else Success(volume)
    {
      calls := calls + [GetVolume];
      r := if fault.Some? then Failure(fault.value) else Success(volume);
    }

    method SetGroupVolume(v: int, fault: Option<string>) returns (err: Option<string>)
      modifies this
      ensures volume == (if fault.None? then v else old(volume)) && mute == old(mute)
      ensures calls == old(calls) + [SetVolume(v)] && err == fault
    {
      calls := calls + [SetVolume(v)];
      if fault.None? {
        volume := v;
      }
      err := fault;
    }

    method GetGroupMute(fault: Option<string>) returns (r: Result<bool, string>)
      modifies this
      ensures volume == old(volume) && mute == old(mute) && calls == old(calls) + [GetMute]
      ensures r == if fault.Some? then Failure(fault.value) else Success(mute)
    {
      calls := calls + [GetMute];
      r := if fault.Some? then Failure(fault.value) else Success(mute);
    }

    method SetGroupMute(m: bool, fault: Option<string>) returns (err: Option<string>)
      modifies this
      ensures mute == (if fault.None? then m else old(mute)) && volume == old(volume)
      ensures calls == old(calls) + [SetMute(m)] && err == fault
    {
      calls := calls + [SetMute(m)];
      if fault.None? {
        mute := m;
      }
      err := fault;
    }
  }

  /** `volume get`. */
  method RunVolumeGet(c: Coordinator, f: Faults) returns (r: Result<Reply, Error>)
    modifies c
    ensures Outcome(c.State(), r) == Run(VolumeGet, old(c.State()), f)
  {
    if f.target.Some? {
      return Failure(TargetError(f.target.value));
    }
    if f.connect.Some? {
      return Failure(ConnectError(f.connect.value));
    }
    var v := c.GetGroupVolume(f.read);
    if v.Failure? {
      return Failure(DeviceError(v.error));
    }
    return Success(Volume(v.value));
  }

  /** `volume set <n>`: the argument is parsed before the client is created. */
  method RunVolumeSet(c: Coordinator, arg: string, f: Faults) returns (r: Result<Reply, Error>)
    modifies c
    ensures Outcome(c.State(), r) == Run(VolumeSet(arg), old(c.State()), f)
  {
    if f.target.Some? {
      return Failure(TargetError(f.target.value));
    }
    var v := Atoi(arg);
    if v.Failure? {
      return Failure(BadVolume(v.error));
    }
    if f.connect.Some? {
      return Failure(ConnectError(f.connect.value));
    }
    var err := c.SetGroupVolume(v.value, f.write);
    if err.Some? {
      return Failure(DeviceError(err.value));
    }
    return Success(Done);
  }

  /** `mute get`. */
  method RunMuteGet(c: Coordinator, f: Faults) returns (r: Result<Reply, Error>)
    modifies c
    ensures Outcome(c.State(), r) == Run(MuteGet, old(c.State()), f)
  {
    if f.target.Some? {
      return Failure(TargetError(f.target.value));
    }
    if f.connect.Some? {
      return Failure(ConnectError(f.connect.value));
    }
    var m := c.GetGroupMute(f.read);
    if m.Failure? {
      return Failure(DeviceError(m.error));
    }
    return Success(Muted(m.value));
  }

  /** `mute on` and `mute off`: one SetGroupMute call with the fixed value. */
  method RunMuteOnOff(c: Coordinator, on: bool, f: Faults) returns (r: Result<Reply, Error>)
    modifies c
    ensures Outcome(c.State(), r) == Run(if on then MuteOn else MuteOff, old(c.State()), f)
  {
    if f.target.Some? {
      return Failure(TargetError(f.target.value));
    }
    if f.connect.Some? {
      return Failure(ConnectError(f.connect.value));
    }
    var err := c.SetGroupMute(on, f.write);
    if err.Some? {
      return Failure(DeviceError(err.value));
    }
    return Success(Done);
  }

  /** `mute toggle`: read, then write the negation. */
  method RunMuteToggle(c: Coordinator, f: Faults) returns (r: Result<Reply, Error>)
    modifies c
    ensures Outcome(c.State(), r) == Run(MuteToggle, old(c.State()), f)
  {
    if f.target.Some? {
      return Failure(TargetError(f.target.value));
    }
    if f.connect.Some? {
      return Failure(ConnectError(f.connect.value));
    }
    var m := c.GetGroupMute(f.read);
    if m.Failure? {
      return Failure(DeviceError(m.error));
    }
    var err := c.SetGroupMute(!m.value, f.write);
    if err.Some? {
      return Failure(DeviceError(err.value));
    }
    return Success(Done);
  }

  /** The hidden `mute set <word>`: the word is parsed before the client is created. */
  method RunMuteSet(c: Coordinator, word: string, f: Faults) returns (r: Result<Reply, Error>)
    modifies c
    ensures Outcome(c.State(), r) == Run(MuteSet(word), old(c.State()), f)
  {
    if f.target.Some? {
      return Failure(TargetError(f.target.value));
    }
    var mute: bool;
    if word == "on" || word == "true" || word == "1" {
      mute := true;
    } else if word == "off" || word == "false" || word == "0" {
      mute := false;
    } else {
      return Failure(InvalidValue(word));
    }
    if f.connect.Some? {
      return Failure(ConnectError(f.connect.value));
    }
    var err := c.SetGroupMute(mute, f.write);
    if err.Some? {
      return Failure(DeviceError(err.value));
    }
    return Success(Done);
  }
}
