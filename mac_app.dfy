/**
 * The macOS menu-bar app: the `IP:PORT` settings dialog's default text and
 * validation, the runner that owns the DJ subprocess, and the menu titles.
 * Dialogs, alerts, notifications, the browser and `Popen` itself are not
 * modelled; their results are parameters.
 */
module MacApp {
  import opened Wrappers
  import opened Text

  const StartTitle: string := "Start Process DJ"
  const StopTitle: string := "Stop Process DJ"
  const ExampleSetting: string := "192.168.1.100:8080"
  const NotSet: string := "Not Set"

  /** Python truthiness of the stored settings: `None`, `''` and `0` are false. */
  predicate IpSet(ip: Option<string>) { ip.Some? && ip.value != [] }
  predicate PortSet(port: Option<int>) { port.Some? && port.value != 0 }

  /**
   * The dialog's default text: `"{ip or ''}:{port or ''}"` with one trailing
   * colon removed, or the example setting when neither is set.
   */
  function DefaultText(ip: Option<string>, port: Option<int>): (text: string)
    ensures !IpSet(ip) && !PortSet(port) ==> text == ExampleSetting
    ensures IpSet(ip) && PortSet(port) ==> text == ip.value + ":" + IntToString(port.value)
    ensures IpSet(ip) && !PortSet(port) ==> text == ip.value
    ensures !IpSet(ip) && PortSet(port) ==> text == ":" + IntToString(port.value)
  {
    NumberShapeWhenSet(port);
    if IpSet(ip) || PortSet(port) then
      var portText := if PortSet(port) then IntToString(port.value) else "";
      var full := (if IpSet(ip) then ip.value else "") + ":" + portText;
      assert PortSet(port) ==> full[|full| - 1] == portText[|portText| - 1];
      if EndsWith(full, ":") then full[..|full| - 1] else full
    else ExampleSetting
  }

  datatype Settings = Settings(ip: string, port: int)

  /** Why an input was rejected; each comes with an alert and leaves everything unchanged. */
  datatype InputError = EmptyInput | MissingColon | EmptyIp | BadPort

  predicate PortInRange(port: int) { 0 < port < 65536 }

  /** `int(text)` succeeds and lies strictly between 0 and 65536. */
  predicate ValidPort(text: string) {
    ParseInt(text).Some? && PortInRange(ParseInt(text).value)
  }

  /**
   * The validation in `configure_settings`: strip, require a colon, split at
   * the last colon, strip both parts, require an ip, and require an integer
   * port strictly between 0 and 65536.
   */
  function ParseSettings(input: string): (r: Result<Settings, InputError>)
    ensures r == Err(EmptyInput) <==> Strip(input) == []
    ensures r == Err(MissingColon) <==> Strip(input) != [] && ':' !in Strip(input)
    ensures r.Ok? ==> r.value.ip != [] && PortInRange(r.value.port)
    ensures r.Ok? ==> Trimmed(r.value.ip)
    ensures r.Ok? ==> (':' in Strip(input) &&
      var (ipPart, portPart) := RSplitOnce(Strip(input), ':');
      r.value.ip == Strip(ipPart) && ParseInt(Strip(portPart)) == Some(r.value.port))
    ensures r == Err(EmptyIp) <==> ':' in Strip(input) && Strip(RSplitOnce(Strip(input), ':').0) == []
    ensures r == Err(BadPort) <==>
      (':' in Strip(input) && Strip(RSplitOnce(Strip(input), ':').0) != [] && !ValidPort(Strip(RSplitOnce(Strip(input), ':').1)))
    ensures r.Ok? <==>
      (':' in Strip(input) && Strip(RSplitOnce(Strip(input), ':').0) != [] && ValidPort(Strip(RSplitOnce(Strip(input), ':').1)))
  {
    var text := Strip(input);
    if text == [] then Err(EmptyInput)
    else if ':' !in text then Err(MissingColon)
    else
      var (ipPart, portPart) := RSplitOnce(text, ':');
      var ip := Strip(ipPart);
      var portText := Strip(portPart);
      if ip == [] then Err(EmptyIp)
      else
        match ParseInt(portText)
        case None => Err(BadPort)
        case Some(port) => if PortInRange(port) then Ok(Settings(ip, port)) else Err(BadPort)
  }

  /** The split is at the last colon: `::1:8080` is the IPv6 loopback on port 8080. */
  lemma Ipv6Loopback()
    ensures ParseSettings("::1:8080") == Ok(Settings("::1", 8080))
  {
    assert "::1" + ":" + "8080" == "::1:8080";
    PortText8080();
    ParseJoined("::1", "8080");
  }

  lemma PortText8080()
    ensures Trimmed("::1") && Trimmed("8080") && ':' !in "8080"
    ensures ParseInt("8080") == Some(8080)
  {
    Decimal8080();
    ParseIntOfIntToString(8080);
  }

  lemma Decimal8080()
    ensures IntToString(8080) == "8080"
  {
    assert NatToString(8) == "8";
    assert NatToString(80) == "80";
    assert NatToString(808) == "808";
  }

  /** Whitespace-free ends, as a stored ip always has. */
  predicate Trimmed(s: string) {
    |s| > 0 && !IsSpace(s[0]) && !IsSpace(s[|s| - 1])
  }

  lemma NumberShapeWhenSet(port: Option<int>)
    ensures port.Some? ==> ':' !in IntToString(port.value) && IsDigit(IntToString(port.value)[|IntToString(port.value)| - 1])
  {
    if port.Some? {
      NumberShape(port.value);
    }
  }

  /** `str(n)` has no colon and ends with a digit. */
  lemma NumberShape(n: int)
    ensures ':' !in IntToString(n)
    ensures IsDigit(IntToString(n)[|IntToString(n)| - 1])
  {
    var s := IntToString(n);
    if n < 0 {
      assert s == "-" + NatToString(-n);
      assert forall k :: 1 <= k < |s| ==> s[k] == NatToString(-n)[k - 1];
    }
  }

  lemma LastColonBeforeNumber(ip: string, digits: string)
    requires ':' !in digits
    ensures RSplitOnce(ip + ":" + digits, ':') == (ip, digits)
  {
    var s := ip + ":" + digits;
    assert s[|ip|] == ':';
    assert s[..|ip|] == ip && s[|ip| + 1..] == digits;
  }

  /**
   * Re-saving the shown default text keeps a valid configuration: the default
   * text of stored settings parses back to exactly those settings.
   */
  lemma DefaultTextRoundTrip(ip: string, port: int)
    requires Trimmed(ip) && PortInRange(port)
    ensures ParseSettings(DefaultText(Some(ip), Some(port))) == Ok(Settings(ip, port))
  {
    var digits := IntToString(port);
    assert DefaultText(Some(ip), Some(port)) == ip + ":" + digits;
    NumberShape(port);
    assert Trimmed(digits) by { assert IsDigit(digits[0]); }
    ParseIntOfIntToString(port);
    ParseJoined(ip, digits);
  }

  /** Text that is exactly `ip:port` with trimmed parts is split at that colon. */
  lemma ParseJoined(ip: string, portText: string)
    requires Trimmed(ip) && Trimmed(portText) && ':' !in portText
    ensures ParseSettings(ip + ":" + portText) ==
      match ParseInt(portText)
      case None => Err(BadPort)
      case Some(p) => if PortInRange(p) then Ok(Settings(ip, p)) else Err(BadPort)
  {
    StoredTextStrips(ip, portText);
    LastColonBeforeNumber(ip, portText);
    StripKeepsTrimmed(ip);
    StripKeepsTrimmed(portText);
  }

  lemma StoredTextStrips(ip: string, digits: string)
    requires Trimmed(ip) && Trimmed(digits)
    ensures Strip(ip + ":" + digits) == ip + ":" + digits
    ensures ':' in ip + ":" + digits
  {
    var text := ip + ":" + digits;
    assert text[0] == ip[0];
    assert text[|text| - 1] == digits[|digits| - 1];
    assert text[|ip|] == ':';
    StripKeepsTrimmed(text);
  }

  // ---- the DJ subprocess ----

  /** A launched child: the arguments it was started with, and whether `poll()` would report an exit. */
  datatype Child = Child(args: seq<string>, exited: bool)

  class ProcessRunner {
    const scriptName: string
    var args: seq<string>
    var process: Option<Child>

    constructor (scriptName: string, args: seq<string>)
      ensures this.scriptName == scriptName && this.args == args && process == None
    {
      this.scriptName := scriptName;
      this.args := args;
      process := None;
    }

    /** `is_running`: a child exists and has not exited. */
    predicate IsRunning()
      reads this
    {
      process.Some? && !process.value.exited
    }

    /**
     * `start`: launches only when not running and the script exists, with the
     * current arguments; reports whether it launched.
     */
    method Start(scriptExists: bool) returns (launched: bool)
      modifies this`process
      ensures launched <==> !old(IsRunning()) && scriptExists
      ensures launched ==> process == Some(Child(args, false)) && IsRunning()
      ensures !launched ==> process == old(process)
    {
      if !IsRunning() {
        if !scriptExists {
          return false;
        }
        process := Some(Child(args, false));
        return true;
      }
      return false;
    }

    /** `stop`: terminates and forgets a running child; does nothing otherwise. */
    method Stop() returns (stopped: bool)
      modifies this`process
      ensures stopped <==> old(IsRunning())
      ensures stopped ==> process == None
      ensures !stopped ==> process == old(process)
      ensures !IsRunning()
    {
      if IsRunning() {
        process := None;
        return true;
      }
      return false;
    }

    /** The child exits on its own (what a later `poll()` observes). */
    method ChildExits()
      modifies this`process
      ensures process == if old(process).Some? then Some(old(process).value.(exited := true)) else None
      ensures !IsRunning()
    {
      if process.Some? {
        process := Some(process.value.(exited := true));
      }
    }
  }

  // ---- the app ----

  class InfiniteRadioApp {
    var ip: Option<string>
    var port: Option<int>
    const runner: ProcessRunner
    var startTitle: string
    var openTitle: string
    /** Whether the start and open items have callbacks (only when configured). */
    var itemsEnabled: bool
    var ipLabel: string
    var portLabel: string

    predicate Configured()
      reads this
    {
      ip.Some? && port.Some?
    }

    /** Both settings are set together, only to validated values, and the runner's arguments follow them. */
    ghost predicate Valid()
      reads this, runner
    {
      && (ip.Some? <==> port.Some?)
      && (ip.Some? ==> Trimmed(ip.value) && PortInRange(port.value)
                       && runner.args == [ip.value, IntToString(port.value)])
      && (ip.None? ==> runner.args == [])
    }

    constructor ()
      ensures Valid() && fresh(runner)
      ensures ip == None && port == None && runner.process == None
      ensures startTitle == StartTitle && openTitle == "Open UI" && !itemsEnabled
      ensures ipLabel == "IP: " + NotSet && portLabel == "Port: " + NotSet
    {
      ip, port := None, None;
      runner := new ProcessRunner("process_dj.py", []);
      new;
      RebuildMenu();
    }

    /** `rebuild_menu`: fresh items, labels from the settings, then `update_status`. */
    method RebuildMenu()
      modifies this`startTitle, this`openTitle, this`itemsEnabled, this`ipLabel, this`portLabel
      ensures itemsEnabled == Configured()
      ensures openTitle == if Configured() then "Open Infinite Radio UI" else "Open UI"
      ensures startTitle == if Configured() && runner.IsRunning() then StopTitle else StartTitle
      ensures ipLabel == "IP: " + (if IpSet(ip) then ip.value else NotSet)
      ensures portLabel == "Port: " + (if PortSet(port) then IntToString(port.value) else NotSet)
    {
      itemsEnabled := Configured();
      startTitle := StartTitle;
      openTitle := if Configured() then "Open Infinite Radio UI" else "Open UI";
      ipLabel := "IP: " + (if IpSet(ip) then ip.value else NotSet);
      portLabel := "Port: " + (if PortSet(port) then IntToString(port.value) else NotSet);
      UpdateStatus();
    }

    /** `update_status`: only when configured, the start item says Stop exactly while the child runs. */
    method UpdateStatus()
      modifies this`startTitle
      ensures Configured() ==> startTitle == (if runner.IsRunning() then StopTitle else StartTitle)
      ensures !Configured() ==> startTitle == old(startTitle)
    {
      if !Configured() {
        return;
      }
      startTitle := if runner.IsRunning() then StopTitle else StartTitle;
    }

    /** `toggle_dj_process` (only reachable when configured). */
    method ToggleDjProcess(scriptExists: bool)
      requires Valid() && Configured()
      modifies runner`process, this`startTitle
      ensures Valid()
      ensures old(runner.IsRunning()) ==> runner.process == None
      ensures !old(runner.IsRunning()) ==> runner.IsRunning() == scriptExists
      ensures startTitle == if runner.IsRunning() then StopTitle else StartTitle
    {
      if runner.IsRunning() {
        var _ := runner.Stop();
      } else {
        var _ := runner.Start(scriptExists);
      }
      UpdateStatus();
    }

    /** The address `open_ui` opens. */
    function UiUrl(): string
      reads this
      requires Configured()
    {
      "http://" + ip.value + ":" + IntToString(port.value)
    }

    /**
     * `configure_settings` with the dialog's result given (`None` when
     * cancelled). Rejected input changes nothing. A save stops a running child,
     * stores the settings and the runner's arguments, rebuilds the menu, and
     * restarts the child if it was running.
     */
    method ConfigureSettings(dialog: Option<string>, scriptExists: bool) returns (shown: string, outcome: Option<Result<Settings, InputError>>)
      requires Valid()
      modifies this`ip, this`port, this`startTitle, this`openTitle, this`itemsEnabled, this`ipLabel, this`portLabel
      modifies runner`args, runner`process
      ensures Valid()
      ensures shown == DefaultText(old(ip), old(port))
      ensures outcome == if dialog.None? then None else Some(ParseSettings(dialog.value))
      ensures (outcome.None? || outcome.value.Err?) ==>
        && ip == old(ip) && port == old(port) && runner.args == old(runner.args) && runner.process == old(runner.process)
        && startTitle == old(startTitle) && itemsEnabled == old(itemsEnabled)
        && openTitle == old(openTitle) && ipLabel == old(ipLabel) && portLabel == old(portLabel)
      ensures outcome.Some? && outcome.value.Ok? ==> Saved(outcome.value.value, old(runner.IsRunning()), old(runner.process), scriptExists)
    {
      shown := DefaultText(ip, port);
      if dialog.None? {
        return shown, None;
      }
      var parsed := ParseSettings(dialog.value);
      outcome := Some(parsed);
      if parsed.Err? {
        return;
      }
      SaveSettings(parsed.value, scriptExists);
    }

    /** The state after `settings` were saved, given whether the child had been running and whether the script exists. */
    predicate Saved(settings: Settings, wasRunning: bool, before: Option<Child>, scriptExists: bool)
      reads this, runner
    {
      && ip == Some(settings.ip) && port == Some(settings.port)
      && runner.args == [settings.ip, IntToString(settings.port)]
      && itemsEnabled && openTitle == "Open Infinite Radio UI"
      && ipLabel == "IP: " + settings.ip && portLabel == "Port: " + IntToString(settings.port)
      && startTitle == StartTitle
      && (wasRunning ==> runner.IsRunning() == scriptExists && (scriptExists ==> runner.process == Some(Child(runner.args, false))))
      && (!wasRunning ==> runner.process == before)
    }

    /** The save path of `configure_settings`: stop, store, rebuild, restart. */
    method SaveSettings(settings: Settings, scriptExists: bool)
      requires Valid() && Trimmed(settings.ip) && PortInRange(settings.port)
      modifies this`ip, this`port, this`startTitle, this`openTitle, this`itemsEnabled, this`ipLabel, this`portLabel
      modifies runner`args, runner`process
      ensures Valid()
      ensures Saved(settings, old(runner.IsRunning()), old(runner.process), scriptExists)
    {
      var wasRunning := runner.IsRunning();
      if wasRunning {
        var _ := runner.Stop();
      }
      ip, port := Some(settings.ip), Some(settings.port);
      runner.args := [settings.ip, IntToString(settings.port)];
      RebuildMenu();
      if wasRunning {
        var _ := runner.Start(scriptExists);
      }
    }

    /** `quit_app` / `before_quit`: the child is stopped before quitting. */
    method Quit()
      modifies runner`process
      ensures !runner.IsRunning()
      ensures old(runner.IsRunning()) ==> runner.process == None
    {
      var _ := runner.Stop();
    }
  }
}
