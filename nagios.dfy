/** The Nagios class: the exclusion predicate, the device and alarm
    evaluators and the guard of the token-generation mode. A verdict is a
    plugin code (0 OK, 2 CRITICAL) with a structured message. */
module Nagios {
  import opened Json
  import opened Outcome
  import CloudIQ

  // ---------------------------------------------------------------------
  // check_excluded

  /** Python's `s.split(',')`: always at least one field, empty fields kept. */
  function Split(s: string): (fields: seq<string>)
    ensures |fields| >= 1
    ensures forall f :: f in fields ==> ',' !in f
    decreases |s|
  {
    if s == [] then [""]
    else
      var rest := Split(s[1..]);
      if s[0] == ',' then [""] + rest else [[s[0]] + rest[0]] + rest[1..]
  }

  /** Python's `','.join(fields)`. */
  function Join(fields: seq<string>): string
    decreases |fields|
  {
    if fields == [] then ""
    else if |fields| == 1 then fields[0]
    else fields[0] + "," + Join(fields[1..])
  }

  lemma {:induction false} JoinSplit(s: string)
    ensures Join(Split(s)) == s
    decreases |s|
  {
    if s != [] {
      var rest := Split(s[1..]);
      JoinSplit(s[1..]);
      if s[0] == ',' {
        assert ([""] + rest)[1..] == rest;
      } else if |rest| > 1 {
        assert ([[s[0]] + rest[0]] + rest[1..])[1..] == rest[1..];
      }
    }
  }

  lemma {:induction false} SplitOfPlain(prefix: string, t: string)
    requires ',' !in prefix
    ensures Split(prefix + t) == [prefix + Split(t)[0]] + Split(t)[1..]
    decreases |prefix|
  {
    if prefix == [] {
      assert prefix + t == t;
      assert prefix + Split(t)[0] == Split(t)[0];
      assert Split(t) == [Split(t)[0]] + Split(t)[1..];
    } else {
      var s := prefix + t;
      assert s != [] && s[0] == prefix[0] && s[0] != ',';
      assert s[1..] == prefix[1..] + t;
      SplitOfPlain(prefix[1..], t);
      var rest := Split(s[1..]);
      assert rest == [prefix[1..] + Split(t)[0]] + Split(t)[1..];
      assert Split(s) == [[s[0]] + rest[0]] + rest[1..];
      assert rest[1..] == Split(t)[1..];
      assert [prefix[0]] + (prefix[1..] + Split(t)[0]) == prefix + Split(t)[0];
    }
  }

  lemma {:induction false} SplitJoin(fields: seq<string>)
    requires |fields| >= 1
    requires forall f :: f in fields ==> ',' !in f
    ensures Split(Join(fields)) == fields
    decreases |fields|
  {
    if |fields| == 1 {
      SplitOfPlain(fields[0], "");
      assert fields[0] + "" == fields[0];
    } else {
      var tail := Join(fields[1..]);
      SplitJoin(fields[1..]);
      assert (fields[0] + "," + tail) == fields[0] + ("," + tail);
      SplitOfPlain(fields[0], "," + tail);
      assert ("," + tail)[1..] == tail;
      assert Split("," + tail) == [""] + fields[1..];
      assert fields[0] + "" == fields[0];
    }
  }

  /** A trailing comma leaves an empty last field. */
  lemma {:induction false} TrailingCommaField(s: string)
    ensures Split(s + ",")[|Split(s + ",")| - 1] == ""
    decreases |s|
  {
    if s == [] {
      assert Split(",") == [""] + Split([]);
    } else {
      assert (s + ",")[1..] == s[1..] + ",";
      TrailingCommaField(s[1..]);
    }
  }

  /** The patterns check_excluded tries: none when the option is absent or empty. */
  function Patterns(exclude: Option<string>): (patterns: seq<string>)
    ensures patterns == [] <==> exclude.None? || exclude.value == ""
    ensures patterns != [] ==> Join(patterns) == exclude.value
    ensures exclude.Some? && exclude.value != "" ==> patterns == Split(exclude.value)
    ensures forall p :: p in patterns ==> ',' !in p
  {
    if exclude.Some? && exclude.value != "" then JoinSplit(exclude.value); Split(exclude.value) else []
  }

  /** ASCII case folding; re.IGNORECASE on other letters is not modelled. */
  function Lower(c: char): char {
    if 'A' <= c <= 'Z' then (c as int + 32) as char else c
  }

  function LowerString(s: string): (r: string)
    ensures |r| == |s|
    ensures forall i :: 0 <= i < |s| ==> r[i] == Lower(s[i])
    decreases |s|
  {
    if s == [] then [] else [Lower(s[0])] + LowerString(s[1..])
  }

  predicate OccursAt(text: string, part: string, i: int) {
    0 <= i <= |text| - |part| && text[i..i + |part|] == part
  }

  predicate Contains(text: string, part: string) {
    exists i :: 0 <= i <= |text| - |part| && OccursAt(text, part, i)
  }

  /** re.search(pattern, host, re.IGNORECASE), with the pattern read literally. */
  predicate Matches(pattern: string, host: string)
    ensures pattern == [] ==> Matches(pattern, host)
    ensures Matches(pattern, host) ==> |pattern| <= |host|
  {
    assert pattern == [] ==> OccursAt(LowerString(host), LowerString(pattern), 0);
    Contains(LowerString(host), LowerString(pattern))
  }

  /** check_excluded: whether some pattern matches the hostname; matching a
      hostname that is not a string raises. */
  function Exclusion(exclude: Option<string>, hostname: Value): (r: Result<bool>)
    ensures Patterns(exclude) == [] ==> r == Ok(false)
    ensures Patterns(exclude) != [] && !hostname.Str? ==> r == Err(Unexpected(NotAString))
    ensures Patterns(exclude) != [] && hostname.Str? ==>
              r.Ok? && (r.value <==> exists p :: p in Patterns(exclude) && Matches(p, hostname.s))
  {
    var patterns := Patterns(exclude);
    if patterns == [] then Ok(false)
    else if !hostname.Str? then Err(Unexpected(NotAString))
    else Ok(exists p :: p in patterns && Matches(p, hostname.s))
  }

  method CheckExcluded(exclude: Option<string>, hostname: Value) returns (r: Result<bool>)
    ensures r == Exclusion(exclude, hostname)
  {
    var excluded: seq<string> := [];
    if exclude.Some? && exclude.value != "" {
      excluded := Split(exclude.value);
    }
    var i := 0;
    while i < |excluded|
      invariant 0 <= i <= |excluded|
      invariant excluded == Patterns(exclude)
      invariant 0 < i ==> hostname.Str?
      invariant forall j :: 0 <= j < i ==> hostname.Str? && !Matches(excluded[j], hostname.s)
    {
      if !hostname.Str? {
        return Err(Unexpected(NotAString));
      }
      if Matches(excluded[i], hostname.s) {
        return Ok(true);
      }
      i := i + 1;
    }
    if excluded != [] {
      assert hostname.Str?;
      forall p | p in excluded
        ensures !Matches(p, hostname.s)
      {
        var j :| 0 <= j < |excluded| && excluded[j] == p;
      }
    }
    return Ok(false);
  }

  lemma NoExcludeOption(hostname: Value)
    ensures Exclusion(None, hostname) == Ok(false)
    ensures Exclusion(Some(""), hostname) == Ok(false)
  {
  }

  /** An empty pattern matches every hostname. */
  lemma EmptyPatternExcludesAll(exclude: string, host: string)
    requires exclude != "" && "" in Split(exclude)
    ensures Exclusion(Some(exclude), Str(host)) == Ok(true)
  {
  }

  /** So an option ending in a comma excludes every device. */
  lemma TrailingCommaExcludesAll(s: string, host: string)
    ensures Exclusion(Some(s + ","), Str(host)) == Ok(true)
  {
    TrailingCommaField(s);
    assert s + "," != "" by { assert |s + ","| == |s| + 1; }
    EmptyPatternExcludesAll(s + ",", host);
  }

  /** Matching ignores the case of both pattern and hostname. */
  lemma MatchesIgnoresCase(p: string, q: string, h: string, k: string)
    requires LowerString(p) == LowerString(q) && LowerString(h) == LowerString(k)
    ensures Matches(p, h) <==> Matches(q, k)
  {
  }

  // ---------------------------------------------------------------------
  // mode_device

  datatype Issue = Issue(hostname: Value, adminState: Value, connected: Value)

  /** What the loop of mode_device does with one device. */
  datatype Visit = Skip(hostname: Value) | Pass | Flag(issue: Issue)

  /** The record is a dict holding `key`. */
  predicate Has(device: Value, key: string) {
    device.Object? && key in device.fields
  }

  /** `device_admin_state != 'MANAGED' or connected != True`, short-circuit. */
  function Unhealthy(device: Value, admin: Value): (r: Result<bool>)
    ensures !EqualsString(admin, "MANAGED") ==> r == Ok(true)
    ensures EqualsString(admin, "MANAGED") && Has(device, "connected") ==>
              r == Ok(!EqualsTrue(device.fields["connected"]))
    ensures EqualsString(admin, "MANAGED") && !Has(device, "connected") ==>
              r == Err(Lookup(device, "connected").error)
  {
    if !EqualsString(admin, "MANAGED") then Ok(true)
    else
      var connected :- Lookup(device, "connected");
      Ok(!EqualsTrue(connected))
  }

  /** One device: a KeyError/TypeError without a hostname; an excluded one
      is skipped whatever else it holds; otherwise the admin state and
      `connected` must be present and decide between an issue and a pass. */
  function Inspect(device: Value, exclude: Option<string>): (r: Result<Visit>)
    ensures !Has(device, "hostname") ==> r == Err(Lookup(device, "hostname").error)
    ensures Has(device, "hostname") ==>
              var hostname := device.fields["hostname"];
              (Exclusion(exclude, hostname).Err? ==> r == Err(Unexpected(NotAString))) &&
              (Exclusion(exclude, hostname) == Ok(true) ==> r == Ok(Skip(hostname))) &&
              (Exclusion(exclude, hostname) == Ok(false) ==>
                 (!Has(device, "device_admin_state") ==>
                    r == Err(Unexpected(MissingKey("device_admin_state")))) &&
                 (Has(device, "device_admin_state") && !Has(device, "connected") ==>
                    r == Err(Unexpected(MissingKey("connected")))) &&
                 (Has(device, "device_admin_state") && Has(device, "connected") ==>
                    var admin, connected := device.fields["device_admin_state"], device.fields["connected"];
                    r == if admin != Str("MANAGED") || !EqualsTrue(connected)
                         then Ok(Flag(Issue(hostname, admin, connected))) else Ok(Pass)))
  {
    var hostname :- Lookup(device, "hostname");
    var excluded :- Exclusion(exclude, hostname);
    if excluded then Ok(Skip(hostname))
    else
      var admin :- Lookup(device, "device_admin_state");
      var unhealthy :- Unhealthy(device, admin);
      if unhealthy then
        // the issue line reads `connected` even when the test short-circuited
        var connected :- Lookup(device, "connected");
        Ok(Flag(Issue(hostname, admin, connected)))
      else Ok(Pass)
  }

  datatype Tally = Tally(issues: seq<Issue>, excluded: seq<Value>)

  function Note(t: Tally, v: Visit): Tally {
    match v
    case Skip(h) => Tally(t.issues, t.excluded + [h])
    case Pass => t
    case Flag(i) => Tally(t.issues + [i], t.excluded)
  }

  /** The issues and excluded hostnames of the devices, in device order, or
      the error the first failing device raises. */
  function Survey(devices: seq<Value>, exclude: Option<string>): (r: Result<Tally>)
    ensures r.Ok? <==> forall i :: 0 <= i < |devices| ==> Inspect(devices[i], exclude).Ok?
    ensures r.Ok? ==> |r.value.issues| + |r.value.excluded| <= |devices|
    decreases |devices|
  {
    if devices == [] then Ok(Tally([], []))
    else
      var t :- Survey(devices[..|devices| - 1], exclude);
      var v :- Inspect(devices[|devices| - 1], exclude);
      Ok(Note(t, v))
  }

  datatype ExcludedSummary = NoneExcluded | ExcludedHosts(count: nat, hostnames: seq<Value>)

  datatype DeviceReport =
    | ProblemsDetected(problems: nat, issues: seq<Issue>, excluded: ExcludedSummary)
    | NoProblems(totalDevices: nat, excluded: ExcludedSummary)

  datatype Verdict<R> = Verdict(code: int, info: R)

  function Summarize(excluded: seq<Value>): (e: ExcludedSummary)
    ensures e.ExcludedHosts? <==> |excluded| > 0
    ensures e.ExcludedHosts? ==> e.count == |excluded| && e.hostnames == excluded
  {
    if |excluded| > 0 then ExcludedHosts(|excluded|, excluded) else NoneExcluded
  }

  /** mode_device's verdict on an already fetched device list. */
  function DeviceCheck(devices: seq<Value>, exclude: Option<string>): (r: Result<Verdict<DeviceReport>>)
    ensures r.Err? <==> Survey(devices, exclude).Err?
    ensures r.Err? ==> r.error == Survey(devices, exclude).error
    ensures r.Ok? ==> r.value.code in {0, 2}
    ensures r.Ok? ==> (r.value.code == 2 <==> |Survey(devices, exclude).value.issues| > 0)
    ensures r.Ok? && r.value.code == 2 ==>
              var t := Survey(devices, exclude).value;
              r.value.info == ProblemsDetected(|t.issues|, t.issues, Summarize(t.excluded))
    ensures r.Ok? && r.value.code == 0 ==>
              r.value.info == NoProblems(|devices|, Summarize(Survey(devices, exclude).value.excluded))
  {
    var t :- Survey(devices, exclude);
    if |t.issues| > 0 then Ok(Verdict(2, ProblemsDetected(|t.issues|, t.issues, Summarize(t.excluded))))
    else Ok(Verdict(0, NoProblems(|devices|, Summarize(t.excluded))))
  }

  method InspectDevice(device: Value, exclude: Option<string>) returns (v: Result<Visit>)
    ensures v == Inspect(device, exclude)
  {
    var hostname := Lookup(device, "hostname");
    if hostname.Err? {
      return Err(hostname.error);
    }
    var excluded := CheckExcluded(exclude, hostname.value);
    if excluded.Err? {
      return Err(excluded.error);
    }
    if excluded.value {
      return Ok(Skip(hostname.value));
    }
    var admin := Lookup(device, "device_admin_state");
    if admin.Err? {
      return Err(admin.error);
    }
    var unhealthy := Unhealthy(device, admin.value);
    if unhealthy.Err? {
      return Err(unhealthy.error);
    }
    if !unhealthy.value {
      return Ok(Pass);
    }
    var connected := Lookup(device, "connected");
    if connected.Err? {
      return Err(connected.error);
    }
    return Ok(Flag(Issue(hostname.value, admin.value, connected.value)));
  }

  lemma {:induction false} SurveyStaysFailed(devices: seq<Value>, exclude: Option<string>, k: nat)
    requires k <= |devices|
    requires Survey(devices[..k], exclude).Err?
    ensures Survey(devices, exclude) == Survey(devices[..k], exclude)
    decreases |devices| - k
  {
    if k < |devices| {
      var longer := devices[..k + 1];
      assert longer[..k] == devices[..k];
      assert Survey(longer, exclude) == Survey(devices[..k], exclude);
      SurveyStaysFailed(devices, exclude, k + 1);
    } else {
      assert devices[..k] == devices;
    }
  }

  /** The device loop of mode_device. */
  method EvaluateDevices(devices: seq<Value>, exclude: Option<string>) returns (r: Result<Verdict<DeviceReport>>)
    ensures r == DeviceCheck(devices, exclude)
  {
    var issues: seq<Issue> := [];
    var excluded: seq<Value> := [];
    var i := 0;
    while i < |devices|
      invariant 0 <= i <= |devices|
      invariant Survey(devices[..i], exclude) == Ok(Tally(issues, excluded))
    {
      var v := InspectDevice(devices[i], exclude);
      ghost var before := Tally(issues, excluded);
      SurveyStep(devices, exclude, i, before);
      if v.Err? {
        return Err(v.error);
      }
      match v.value {
        case Skip(h) =>
          excluded := excluded + [h];
        case Pass =>
        case Flag(issue) =>
          issues := issues + [issue];
      }
      assert Tally(issues, excluded) == Note(before, v.value);
      i := i + 1;
    }
    assert devices[..i] == devices;
    if |issues| > 0 {
      r := Ok(Verdict(2, ProblemsDetected(|issues|, issues, Summarize(excluded))));
    } else {
      r := Ok(Verdict(0, NoProblems(|devices|, Summarize(excluded))));
    }
  }

  /** mode_device: fetch every device page, then evaluate. */
  function DeviceMode(net: CloudIQ.Network, exclude: Option<string>): (r: Result<Verdict<DeviceReport>>)
    ensures var fetched := CloudIQ.PagedResult(net, CloudIQ.DevicesUrl, CloudIQ.DeviceParams);
            (fetched.Err? ==> r == Err(fetched.error)) && (fetched.Ok? ==> r == DeviceCheck(fetched.value, exclude))
  {
    var devices :- CloudIQ.PagedResult(net, CloudIQ.DevicesUrl, CloudIQ.DeviceParams);
    DeviceCheck(devices, exclude)
  }

  method ModeDevice(net: CloudIQ.Network, exclude: Option<string>) returns (r: Result<Verdict<DeviceReport>>)
    ensures r == DeviceMode(net, exclude)
  {
    var devices, _ := CloudIQ.Devices(net);
    if devices.Err? {
      return Err(devices.error);
    }
    r := EvaluateDevices(devices.value, exclude);
  }

  // Properties of the device evaluation

  /** A device carrying all three fields: excluded by its hostname, or an
      issue exactly when it is not MANAGED or not connected. */
  lemma DeviceIsIssueIff(device: Value, exclude: Option<string>)
    requires Has(device, "hostname") && Has(device, "device_admin_state") && Has(device, "connected")
    requires Exclusion(exclude, device.fields["hostname"]).Ok?
    ensures var hostname, admin, connected :=
              device.fields["hostname"], device.fields["device_admin_state"], device.fields["connected"];
            Inspect(device, exclude) ==
              if Exclusion(exclude, hostname).value then Ok(Skip(hostname))
              else if admin != Str("MANAGED") || !EqualsTrue(connected) then Ok(Flag(Issue(hostname, admin, connected)))
              else Ok(Pass)
  {
  }

  /** The tally of two runs of the loop, one after the other. */
  function Combine(x: Tally, y: Tally): Tally {
    Tally(x.issues + y.issues, x.excluded + y.excluded)
  }

  lemma SurveySnoc(s: seq<Value>, d: Value, exclude: Option<string>)
    requires Survey(s, exclude).Ok? && Inspect(d, exclude).Ok?
    ensures Survey(s + [d], exclude) == Ok(Note(Survey(s, exclude).value, Inspect(d, exclude).value))
  {
  }

  lemma SurveyStopsAt(s: seq<Value>, d: Value, exclude: Option<string>)
    requires Survey(s, exclude).Ok? && Inspect(d, exclude).Err?
    ensures Survey(s + [d], exclude) == Err(Inspect(d, exclude).error)
  {
  }

  /** One iteration of the device loop: a failing device decides the
      verdict, any other extends the tally by its visit. */
  lemma SurveyStep(devices: seq<Value>, exclude: Option<string>, i: nat, t: Tally)
    requires i < |devices| && Survey(devices[..i], exclude) == Ok(t)
    ensures Inspect(devices[i], exclude).Err? ==>
              DeviceCheck(devices, exclude) == Err(Inspect(devices[i], exclude).error)
    ensures Inspect(devices[i], exclude).Ok? ==>
              Survey(devices[..i + 1], exclude) == Ok(Note(t, Inspect(devices[i], exclude).value))
  {
    assert devices[..i + 1] == devices[..i] + [devices[i]];
    if Inspect(devices[i], exclude).Err? {
      SurveyStopsAt(devices[..i], devices[i], exclude);
      SurveyStaysFailed(devices, exclude, i + 1);
    } else {
      SurveySnoc(devices[..i], devices[i], exclude);
    }
  }

  lemma NoteCombine(x: Tally, y: Tally, v: Visit)
    ensures Note(Combine(x, y), v) == Combine(x, Note(y, v))
  {
  }

  lemma AppendSnoc(a: seq<Value>, front: seq<Value>, last: Value)
    ensures a + (front + [last]) == (a + front) + [last]
  {
  }

  /** Surveying a concatenation is surveying its parts, in order. */
  lemma {:induction false} SurveyAppend(a: seq<Value>, b: seq<Value>, exclude: Option<string>)
    requires Survey(a, exclude).Ok? && Survey(b, exclude).Ok?
    ensures Survey(a + b, exclude) == Ok(Combine(Survey(a, exclude).value, Survey(b, exclude).value))
    decreases |b|
  {
    var ta := Survey(a, exclude).value;
    if b == [] {
      assert a + b == a;
      assert ta.issues + [] == ta.issues && ta.excluded + [] == ta.excluded;
    } else {
      var front, last := b[..|b| - 1], b[|b| - 1];
      assert b == front + [last];
      assert Survey(front, exclude).Ok? && Inspect(last, exclude).Ok?;
      SurveyAppend(a, front, exclude);
      AppendSnoc(a, front, last);
      SurveySnoc(a + front, last, exclude);
      NoteCombine(ta, Survey(front, exclude).value, Inspect(last, exclude).value);
    }
  }

  /** No excluded hostname is ever reported as an issue, and every hostname
      in the excluded list matched an exclusion pattern. */
  lemma {:induction false} ExcludedNeverIssues(devices: seq<Value>, exclude: Option<string>)
    requires Survey(devices, exclude).Ok?
    ensures forall i :: i in Survey(devices, exclude).value.issues ==> Exclusion(exclude, i.hostname) == Ok(false)
    ensures forall h :: h in Survey(devices, exclude).value.excluded ==> Exclusion(exclude, h) == Ok(true)
    ensures |Survey(devices, exclude).value.issues| + |Survey(devices, exclude).value.excluded| <= |devices|
    decreases |devices|
  {
    if devices != [] {
      ExcludedNeverIssues(devices[..|devices| - 1], exclude);
    }
  }

  /** Two devices, "a" healthy and "b" unmanaged, with no exclusion option:
      CRITICAL, listing only "b". */
  lemma ExampleCritical()
    ensures var a := Object(map["hostname" := Str("a"), "device_admin_state" := Str("MANAGED"), "connected" := Bool(true)]);
            var b := Object(map["hostname" := Str("b"), "device_admin_state" := Str("UNMANAGED"), "connected" := Bool(true)]);
            DeviceCheck([a, b], None) ==
              Ok(Verdict(2, ProblemsDetected(1, [Issue(Str("b"), Str("UNMANAGED"), Bool(true))], NoneExcluded)))
  {
    var a := Object(map["hostname" := Str("a"), "device_admin_state" := Str("MANAGED"), "connected" := Bool(true)]);
    var b := Object(map["hostname" := Str("b"), "device_admin_state" := Str("UNMANAGED"), "connected" := Bool(true)]);
    assert Inspect(a, None) == Ok(Pass);
    assert Inspect(b, None) == Ok(Flag(Issue(Str("b"), Str("UNMANAGED"), Bool(true))));
    assert [a, b][..1] == [a];
    assert [a][..0] == [];
    assert Survey([a], None) == Ok(Tally([], []));
    assert [a, b][1] == b;
    assert Note(Tally([], []), Flag(Issue(Str("b"), Str("UNMANAGED"), Bool(true)))) ==
           Tally([Issue(Str("b"), Str("UNMANAGED"), Bool(true))], []);
    assert Survey([a, b], None) == Ok(Tally([Issue(Str("b"), Str("UNMANAGED"), Bool(true))], []));
  }

  /** The same devices with exclusion pattern "b": OK, total 2, "b" excluded. */
  lemma ExampleExcluded()
    ensures var a := Object(map["hostname" := Str("a"), "device_admin_state" := Str("MANAGED"), "connected" := Bool(true)]);
            var b := Object(map["hostname" := Str("b"), "device_admin_state" := Str("UNMANAGED"), "connected" := Bool(true)]);
            DeviceCheck([a, b], Some("b")) ==
              Ok(Verdict(0, NoProblems(2, ExcludedHosts(1, [Str("b")]))))
  {
    var a := Object(map["hostname" := Str("a"), "device_admin_state" := Str("MANAGED"), "connected" := Bool(true)]);
    var b := Object(map["hostname" := Str("b"), "device_admin_state" := Str("UNMANAGED"), "connected" := Bool(true)]);
    assert Split("b") == ["b"] by {
      assert "b"[1..] == [];
      assert Split([]) == [""];
      assert ['b'] + "" == "b";
    }
    assert Patterns(Some("b")) == ["b"];
    assert LowerString("a") == "a" by {
      assert "a"[1..] == [];
    }
    assert LowerString("b") == "b" by {
      assert "b"[1..] == [];
    }
    assert !Matches("b", "a") by {
      forall i ensures !OccursAt("a", "b", i) {
        if 0 <= i <= 0 {
          assert "a"[0..1] == "a";
        }
      }
    }
    assert Matches("b", "b") by {
      assert "b"[0..1] == "b";
      assert OccursAt("b", "b", 0);
    }
    assert Exclusion(Some("b"), Str("a")) == Ok(false);
    assert Exclusion(Some("b"), Str("b")) == Ok(true);
    assert Inspect(a, Some("b")) == Ok(Pass);
    assert Inspect(b, Some("b")) == Ok(Skip(Str("b")));
    assert [a, b][..1] == [a];
    assert [a][..0] == [];
    assert Survey([a], Some("b")) == Ok(Tally([], []));
    assert [a, b][1] == b;
    assert Note(Tally([], []), Skip(Str("b"))) == Tally([], [Str("b")]);
    assert Survey([a, b], Some("b")) == Ok(Tally([], [Str("b")]));
  }

  // ---------------------------------------------------------------------
  // mode_alarm

  datatype AlarmLine = AlarmLine(sourceName: Value, summary: Value, locationNames: Value)

  datatype AlarmReport = AlertsFound(count: nat, lines: seq<AlarmLine>) | NoAlerts

  /** The summary line of one alarm, fields read left to right. */
  function Describe(alarm: Value): (r: Result<AlarmLine>)
    ensures r.Ok? <==> Has(alarm, "source") && Has(alarm.fields["source"], "source_name") &&
                       Has(alarm, "summary") && Has(alarm, "tags") &&
                       Has(alarm.fields["tags"], "location_names")
    ensures r.Ok? ==> r.value == AlarmLine(alarm.fields["source"].fields["source_name"],
                                           alarm.fields["summary"],
                                           alarm.fields["tags"].fields["location_names"])
    ensures r.Err? ==> r.error.Unexpected? && (r.error.fault.MissingKey? || r.error.fault == NotSubscriptable)
    // the first lookup that fails, in the order the f-string reads them, is the error
    ensures !Has(alarm, "source") ==> r == Err(Lookup(alarm, "source").error)
    ensures Has(alarm, "source") && !Has(alarm.fields["source"], "source_name") ==>
              r == Err(Lookup(alarm.fields["source"], "source_name").error)
    ensures Has(alarm, "source") && Has(alarm.fields["source"], "source_name") && !Has(alarm, "summary") ==>
              r == Err(Unexpected(MissingKey("summary")))
    ensures Has(alarm, "source") && Has(alarm.fields["source"], "source_name") && Has(alarm, "summary") &&
            !Has(alarm, "tags") ==>
              r == Err(Unexpected(MissingKey("tags")))
    ensures Has(alarm, "source") && Has(alarm.fields["source"], "source_name") && Has(alarm, "summary") &&
            Has(alarm, "tags") && !Has(alarm.fields["tags"], "location_names") ==>
              r == Err(Lookup(alarm.fields["tags"], "location_names").error)
  {
    var source :- Lookup(alarm, "source");
    var name :- Lookup(source, "source_name");
    var summary :- Lookup(alarm, "summary");
    var tags :- Lookup(alarm, "tags");
    var locations :- Lookup(tags, "location_names");
    Ok(AlarmLine(name, summary, locations))
  }

  function Summaries(alarms: seq<Value>): (r: Result<seq<AlarmLine>>)
    ensures r.Ok? ==> |r.value| == |alarms|
    decreases |alarms|
  {
    if alarms == [] then Ok([])
    else
      var lines :- Summaries(alarms[..|alarms| - 1]);
      var line :- Describe(alarms[|alarms| - 1]);
      Ok(lines + [line])
  }

  /** One summary line per alarm, in alarm order, when every alarm has the
      fields; otherwise the error of the first alarm lacking one. */
  lemma {:induction false} SummariesPerAlarm(alarms: seq<Value>)
    ensures Summaries(alarms).Ok? <==> forall i :: 0 <= i < |alarms| ==> Describe(alarms[i]).Ok?
    ensures Summaries(alarms).Ok? ==>
              |Summaries(alarms).value| == |alarms| &&
              forall i :: 0 <= i < |alarms| ==> Describe(alarms[i]) == Ok(Summaries(alarms).value[i])
    decreases |alarms|
  {
    if alarms != [] {
      var front := alarms[..|alarms| - 1];
      SummariesPerAlarm(front);
      assert forall i :: 0 <= i < |front| ==> front[i] == alarms[i];
    }
  }

  lemma {:induction false} SummariesFirstFailure(alarms: seq<Value>, k: nat)
    requires k < |alarms|
    requires forall i :: 0 <= i < k ==> Describe(alarms[i]).Ok?
    requires Describe(alarms[k]).Err?
    ensures Summaries(alarms) == Err(Describe(alarms[k]).error)
    decreases |alarms|
  {
    var front := alarms[..|alarms| - 1];
    if k < |alarms| - 1 {
      SummariesFirstFailure(front, k);
    } else {
      SummariesPerAlarm(front);
    }
  }

  /** mode_alarm's verdict on an already fetched alarm list: no filtering,
      CRITICAL as soon as there is one alarm. */
  function AlarmCheck(alarms: seq<Value>): (r: Result<Verdict<AlarmReport>>)
    ensures r.Err? <==> Summaries(alarms).Err?
    ensures r.Err? ==> r.error == Summaries(alarms).error
    ensures r.Ok? ==> r.value.code in {0, 2} && (r.value.code == 2 <==> |alarms| > 0)
    ensures r.Ok? && |alarms| > 0 ==> r.value.info == AlertsFound(|alarms|, Summaries(alarms).value)
    ensures r.Ok? && |alarms| == 0 ==> r.value.info == NoAlerts
  {
    var lines :- Summaries(alarms);
    if |alarms| > 0 then Ok(Verdict(2, AlertsFound(|alarms|, lines))) else Ok(Verdict(0, NoAlerts))
  }

  lemma {:induction false} SummariesStayFailed(alarms: seq<Value>, k: nat)
    requires k <= |alarms|
    requires Summaries(alarms[..k]).Err?
    ensures Summaries(alarms) == Summaries(alarms[..k])
    decreases |alarms| - k
  {
    if k < |alarms| {
      assert alarms[..k + 1][..k] == alarms[..k];
      SummariesStayFailed(alarms, k + 1);
    } else {
      assert alarms[..k] == alarms;
    }
  }

  /** The summary loop of mode_alarm. */
  method EvaluateAlarms(alarms: seq<Value>) returns (r: Result<Verdict<AlarmReport>>)
    ensures r == AlarmCheck(alarms)
  {
    var summary: seq<AlarmLine> := [];
    var i := 0;
    while i < |alarms|
      invariant 0 <= i <= |alarms|
      invariant Summaries(alarms[..i]) == Ok(summary)
    {
      var line := Describe(alarms[i]);
      assert alarms[..i + 1][..i] == alarms[..i];
      if line.Err? {
        SummariesStayFailed(alarms, i + 1);
        return Err(line.error);
      }
      summary := summary + [line.value];
      i := i + 1;
    }
    assert alarms[..i] == alarms;
    if |alarms| > 0 {
      r := Ok(Verdict(2, AlertsFound(|alarms|, summary)));
    } else {
      r := Ok(Verdict(0, NoAlerts));
    }
  }

  function AlarmMode(net: CloudIQ.Network, startTime: int, endTime: int): (r: Result<Verdict<AlarmReport>>)
    ensures var fetched := CloudIQ.PagedResult(net, CloudIQ.AlertsUrl, CloudIQ.AlarmParams(startTime, endTime));
            (fetched.Err? ==> r == Err(fetched.error)) && (fetched.Ok? ==> r == AlarmCheck(fetched.value))
  {
    var alarms :- CloudIQ.PagedResult(net, CloudIQ.AlertsUrl, CloudIQ.AlarmParams(startTime, endTime));
    AlarmCheck(alarms)
  }

  method ModeAlarm(net: CloudIQ.Network, startTime: int, endTime: int) returns (r: Result<Verdict<AlarmReport>>)
    ensures r == AlarmMode(net, startTime, endTime)
  {
    var alarms, _ := CloudIQ.Alarms(net, startTime, endTime);
    if alarms.Err? {
      return Err(alarms.error);
    }
    r := EvaluateAlarms(alarms.value);
  }

  // ---------------------------------------------------------------------
  // generate_token

  datatype TokenAttempt = TokenAttempt(result: Result<Value>, sent: seq<CloudIQ.Request>)

  /** generate_token: without both credentials it returns {} and sends
      nothing. With them it logs in, then calls the access-token string that
      login stored over the `token` method, which raises. */
  function GenerateToken(user: Option<string>, password: Option<string>, net: CloudIQ.Network): (a: TokenAttempt)
    ensures user.None? || password.None? <==> a.sent == []
    ensures user.None? || password.None? ==> a.result == Ok(Object(map[]))
    ensures user.Some? && password.Some? ==>
              a.sent == [CloudIQ.LoginRequest(user.value, password.value)] && a.result.Err?
    ensures user.Some? && password.Some? && CloudIQ.Login(net, user.value, password.value).Err? ==>
              a.result == CloudIQ.Login(net, user.value, password.value)
    ensures user.Some? && password.Some? && CloudIQ.Login(net, user.value, password.value).Ok? ==>
              a.result == Err(Unexpected(NotCallable))
  {
    if user.None? || password.None? then TokenAttempt(Ok(Object(map[])), [])
    else
      var login := CloudIQ.Login(net, user.value, password.value);
      var result := if login.Err? then Err(login.error) else Err(Unexpected(NotCallable));
      TokenAttempt(result, [CloudIQ.LoginRequest(user.value, password.value)])
  }
}
