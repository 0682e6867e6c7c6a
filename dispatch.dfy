// The `__main__` receive loop of mod_report as a specification: how each
// received item is classified, which effects a report request leads to, and
// the whole effect trace of a run, from the bootstrap to the process exit.
// The imperative loop itself is ModReport.Worker.Serve.

module Dispatch {
  import opened Trace
  import opened Text
  import opened Traffic

  const StatusChannel := "services_status"
  const NotifyChannel := "mod_comm_send_check"
  const Online := "MOD_REPORT:online"
  const Offline := "MOD_REPORT:offline"
  const ProbeToken := "report_status"
  const ReportMarker := "report_profile"

  /** One step of `db_subscriber.listen()`: an item, or the exception it raised. */
  datatype Received = Item(kind: string, data: string) | ListenFailed

  datatype Command =
    | Ignored
    | StatusProbe
    | ReportRequest(profile: string)
    | BadRequest      // a report request without ':', on which `split(':')[1]` raises

  /** The profile named by a report request: the second `:`-separated field. */
  function ProfileName(data: string): (name: Option<string>)
    ensures name.None? <==> ':' !in data
    ensures name.Some? ==> ':' !in name.value
  {
    var fields := Split(data, ':');
    if |fields| >= 2 then Some(fields[1]) else None
  }

  /**
   * `report_profile:<name>` names `<name>` as long as `<name>` has no colon,
   * whatever follows it after a further colon; and more generally the name
   * is the field after the first colon, ending at the next one.
   */
  lemma {:induction false} ProfileNameIsSecondField(head: string, name: string, tail: string)
    requires ':' !in head && ':' !in name
    requires tail == [] || tail[0] == ':'
    ensures ProfileName(head + ":" + name + tail) == Some(name)
  {
    assert head + ":" + name + tail == head + [':'] + (name + tail);
    SplitAfterField(head, ':', name + tail);
    if tail == [] {
      assert name + tail == name;
      SplitNoSeparator(name, ':');
    } else {
      assert name + tail == name + [':'] + tail[1..];
      SplitAfterField(name, ':', tail[1..]);
    }
  }

  /** The name is not "everything after the first colon". */
  lemma NameStopsAtSecondColon()
    ensures ProfileName("report_profile:a:b") == Some("a")
  {
    assert "report_profile:a:b" == "report_profile" + ":" + "a" + ":b";
    ProfileNameIsSecondField("report_profile", "a", ":b");
  }

  lemma ProbeIsNotReport()
    ensures !Contains(ProbeToken, ReportMarker)
  {
  }

  /**
   * The decision table of the receive loop: the item type, then the exact
   * probe token, then the report marker anywhere in the payload.
   */
  function Classify(kind: string, data: string): (cmd: Command)
    ensures cmd.StatusProbe? <==> kind == "message" && data == ProbeToken
    ensures cmd.ReportRequest? <==>
      kind == "message" && Contains(data, ReportMarker) && ':' in data
    ensures cmd.ReportRequest? ==> ProfileName(data) == Some(cmd.profile)
    ensures cmd.BadRequest? <==>
      kind == "message" && Contains(data, ReportMarker) && ':' !in data
    ensures cmd.Ignored? <==>
      kind != "message" || (data != ProbeToken && !Contains(data, ReportMarker))
  {
    ProbeIsNotReport();
    if kind != "message" then Ignored
    else if data == ProbeToken then StatusProbe
    else if Contains(data, ReportMarker) then
      match ProfileName(data)
      case Some(profile) => ReportRequest(profile)
      case None => BadRequest
    else Ignored
  }

  function NotifyMessage(profile: string, validCapture: bool): string
  {
    (if validCapture then "send_report_profile_email:" else "send_empty_capture_email:") + profile
  }

  /** The clean end of the stream: announce offline, close both handles, exit 0. */
  const Shutdown: seq<Effect> := [Publish(StatusChannel, Offline), CloseSubscriber, CloseClient, Exit(0)]

  /** The outer exception handler: close both handles and exit -1, without announcing offline. */
  const Teardown: seq<Effect> := [CloseSubscriber, CloseClient, Exit(-1)]

  /** What one received item does: effects, then either the loop goes on or the process has exited. */
  datatype Step = Continue(effects: seq<Effect>) | Stop(effects: seq<Effect>)

  /** The notification, queue removal and stamping that close out a report request. */
  function CloseOut(profile: string, validCapture: bool): seq<Effect>
  {
    [Publish(NotifyChannel, NotifyMessage(profile, validCapture)), DelFromQueue(profile), UpdReported(profile)]
  }

  /** One iteration of the receive loop. */
  function Handle(host: Host, r: Received): Step
  {
    match r
    case ListenFailed => Stop(Teardown)
    case Item(kind, data) =>
      match Classify(kind, data)
      case Ignored => Continue([])
      case StatusProbe => Continue([Publish(StatusChannel, Online)])
      case BadRequest => Stop(Teardown)
      case ReportRequest(profile) =>
        var p := Process(host, profile);
        match p.outcome
        case Aborted => Stop(p.effects)
        case Finished(valid) => Continue(p.effects + CloseOut(profile, valid))
  }

  /** The effects of the receive loop over `items` and of everything after it. */
  function ServeTrace(host: Host, items: seq<Received>): seq<Effect>
    decreases |items|
  {
    if items == [] then Shutdown
    else match Handle(host, items[0])
      case Stop(effects) => effects
      case Continue(effects) => effects + ServeTrace(host, items[1..])
  }

  /** Unfolding ServeTrace at position `i` of the stream. */
  lemma ServeTraceAt(host: Host, items: seq<Received>, i: nat)
    requires i < |items|
    ensures Handle(host, items[i]).Stop? ==> ServeTrace(host, items[i..]) == Handle(host, items[i]).effects
    ensures Handle(host, items[i]).Continue? ==>
      ServeTrace(host, items[i..]) == Handle(host, items[i]).effects + ServeTrace(host, items[i + 1..])
  {
  }

  /** A whole run: a failed connection or subscription exits -1 before anything else. */
  function RunTrace(host: Host, transportReady: bool, items: seq<Received>): seq<Effect>
  {
    if transportReady then ServeTrace(host, items) else [Exit(-1)]
  }

  // ---------------------------------------------------------------------------
  // Properties of single items

  /** A probe publishes exactly one online announcement and touches nothing else. */
  lemma ProbeAnnouncesOnline(host: Host, rest: seq<Received>)
    ensures ServeTrace(host, [Item("message", ProbeToken)] + rest)
         == [Publish(StatusChannel, Online)] + ServeTrace(host, rest)
  {
  }

  /**
   * A payload that carries the report marker anywhere and has a colon
   * processes the profile it names, then publishes the outcome, removes the
   * profile from the pending queue and stamps it, each exactly once and in
   * that order, whichever the outcome; unless processing exited the process.
   */
  lemma ReportRequestCycle(host: Host, data: string, rest: seq<Received>)
    requires Contains(data, ReportMarker) && ':' in data
    ensures var name := ProfileName(data).value;
      var p := Process(host, name);
      ServeTrace(host, [Item("message", data)] + rest)
      == (if p.outcome.Aborted? then p.effects else
            p.effects
            + [Publish(NotifyChannel, NotifyMessage(name, p.outcome.validCapture)),
               DelFromQueue(name), UpdReported(name)]
            + ServeTrace(host, rest))
  {
    var items := [Item("message", data)] + rest;
    assert items[0] == Item("message", data) && items[1..] == rest;
    RequestStep(host, data);
  }

  /** The step a report request makes, on its own. */
  lemma RequestStep(host: Host, data: string)
    requires Contains(data, ReportMarker) && ':' in data
    ensures var name := ProfileName(data).value;
      var p := Process(host, name);
      Handle(host, Item("message", data))
      == (if p.outcome.Aborted? then Stop(p.effects) else Continue(p.effects + CloseOut(name, p.outcome.validCapture)))
  {
    ProbeIsNotReport();
    assert data != ProbeToken;
  }

  /** The common form `report_profile:<name>`, possibly with more `:`-fields after the name. */
  lemma PrefixedRequestNamesProfile(name: string, tail: string)
    requires ':' !in name && (tail == [] || tail[0] == ':')
    ensures var data := ReportMarker + ":" + name + tail;
      Classify("message", data) == ReportRequest(name)
  {
    var data := ReportMarker + ":" + name + tail;
    ProfileNameIsSecondField(ReportMarker, name, tail);
    assert OccursAt(data, ReportMarker, 0);
  }

  /** A stream holding one well-formed report request and then ending cleanly. */
  lemma SingleRequestTrace(host: Host, name: string)
    requires ':' !in name && Process(host, name).outcome.Finished?
    ensures var p := Process(host, name);
      ServeTrace(host, [Item("message", ReportMarker + ":" + name)])
      == p.effects + CloseOut(name, p.outcome.validCapture) + Shutdown
  {
    var data := ReportMarker + ":" + name;
    assert data == ReportMarker + ":" + name + "";
    PrefixedRequestNamesProfile(name, "");
    ReportRequestCycle(host, data, []);
    assert [Item("message", data)] + [] == [Item("message", data)];
  }

  /** A report payload without ':' is handled like any exception: teardown, exit -1, no offline. */
  lemma BadRequestTearsDown(host: Host, data: string, rest: seq<Received>)
    requires Contains(data, ReportMarker) && ':' !in data
    ensures ServeTrace(host, [Item("message", data)] + rest) == Teardown
  {
  }

  /** `listen()` raising is handled like any exception: teardown, exit -1, no offline. */
  lemma ListenFailureTearsDown(host: Host, rest: seq<Received>)
    ensures ServeTrace(host, [ListenFailed] + rest) == Teardown
  {
  }

  /** An item the loop does not recognise leaves no trace. */
  predicate Ignorable(r: Received)
  {
    r.Item? && Classify(r.kind, r.data).Ignored?
  }

  function Relevant(items: seq<Received>): (r: seq<Received>)
    ensures forall x :: x in r <==> x in items && !Ignorable(x)
  {
    if items == [] then []
    else (if Ignorable(items[0]) then [] else [items[0]]) + Relevant(items[1..])
  }

  /**
   * An item that is not a `message` (a subscription acknowledgement, say),
   * or a message that is neither the probe nor carries the report marker,
   * adds nothing to the trace.
   */
  lemma UnrecognisedItemSkipped(host: Host, kind: string, data: string, rest: seq<Received>)
    requires kind != "message" || (data != ProbeToken && !Contains(data, ReportMarker))
    ensures ServeTrace(host, [Item(kind, data)] + rest) == ServeTrace(host, rest)
  {
  }

  /**
   * Non-`message` items, and messages that are neither the probe nor carry
   * the report marker, change nothing: dropping them all gives the same trace.
   */
  lemma {:induction false} IgnoredItemsInvisible(host: Host, items: seq<Received>)
    ensures ServeTrace(host, Relevant(items)) == ServeTrace(host, items)
  {
    if items != [] {
      IgnoredItemsInvisible(host, items[1..]);
      var tail := Relevant(items[1..]);
      if Ignorable(items[0]) {
        assert Handle(host, items[0]) == Continue([]);
        assert Relevant(items) == tail;
        assert ServeTrace(host, items) == [] + ServeTrace(host, items[1..]);
      } else {
        var kept := [items[0]] + tail;
        assert Relevant(items) == kept;
        assert kept[0] == items[0] && kept[1..] == tail;
      }
    }
  }

  // ---------------------------------------------------------------------------
  // Properties of whole traces

  /** No effect of `a` exits the process or announces offline. */
  predicate Quiet(a: seq<Effect>)
  {
    forall e :: e in a ==> !e.Exit? && e != Publish(StatusChannel, Offline)
  }

  /**
   * The trace ends with the one exit of the process, with code 0 or -1;
   * offline is announced exactly when the code is 0, and then the trace
   * ends with the announcement, the two closes and the exit.
   */
  predicate ExitsOnce(t: seq<Effect>)
  {
    |t| >= 1 &&
    (forall i :: 0 <= i < |t| - 1 ==> !t[i].Exit?) &&
    t[|t| - 1] in {Exit(0), Exit(-1)} &&
    (Publish(StatusChannel, Offline) in t <==> t[|t| - 1] == Exit(0)) &&
    (t[|t| - 1] == Exit(0) ==> |t| >= 4 && t[|t| - 4..] == Shutdown)
  }

  lemma QuietPrefix(a: seq<Effect>, b: seq<Effect>)
    requires Quiet(a) && ExitsOnce(b)
    ensures ExitsOnce(a + b)
  {
  }

  /** A step that lets the loop go on neither exits nor announces offline; one that stops exits once, with -1. */
  lemma ProcessExitsOnce(host: Host, profile: string)
    ensures Process(host, profile).outcome.Aborted? ==> ExitsOnce(Process(host, profile).effects)
    ensures Process(host, profile).outcome.Finished? ==> Quiet(Process(host, profile).effects)
  {
  }

  lemma TeardownExitsOnce()
    ensures ExitsOnce(Teardown)
  {
  }

  lemma CloseOutQuiet(profile: string, validCapture: bool)
    ensures Quiet(CloseOut(profile, validCapture))
  {
  }

  lemma QuietConcat(a: seq<Effect>, b: seq<Effect>)
    requires Quiet(a) && Quiet(b)
    ensures Quiet(a + b)
  {
  }

  lemma HandleExits(host: Host, r: Received)
    ensures Handle(host, r).Continue? ==> Quiet(Handle(host, r).effects)
    ensures Handle(host, r).Stop? ==> ExitsOnce(Handle(host, r).effects)
  {
    TeardownExitsOnce();
    if r.Item? {
      var cmd := Classify(r.kind, r.data);
      if cmd.ReportRequest? {
        var p := Process(host, cmd.profile);
        ProcessExitsOnce(host, cmd.profile);
        if p.outcome.Finished? {
          CloseOutQuiet(cmd.profile, p.outcome.validCapture);
          QuietConcat(p.effects, CloseOut(cmd.profile, p.outcome.validCapture));
          assert Handle(host, r) == Continue(p.effects + CloseOut(cmd.profile, p.outcome.validCapture));
        } else {
          assert Handle(host, r) == Stop(p.effects);
        }
      } else if cmd.StatusProbe? {
        assert Handle(host, r) == Continue([Publish(StatusChannel, Online)]);
      }
    }
  }

  lemma {:induction false} ServeExitsOnce(host: Host, items: seq<Received>)
    ensures ExitsOnce(ServeTrace(host, items))
  {
    if items != [] {
      HandleExits(host, items[0]);
      if Handle(host, items[0]).Continue? {
        ServeExitsOnce(host, items[1..]);
        QuietPrefix(Handle(host, items[0]).effects, ServeTrace(host, items[1..]));
      }
    }
  }

  /**
   * Every run ends in exactly one exit; exit 0, with the offline
   * announcement and both closes, only at the clean end of the stream.
   */
  lemma RunExitsOnce(host: Host, transportReady: bool, items: seq<Received>)
    ensures ExitsOnce(RunTrace(host, transportReady, items))
  {
    if transportReady {
      ServeExitsOnce(host, items);
    }
  }

  /**
   * Registry bookkeeping comes as a unit: every removal from the pending
   * queue directly follows the outcome notification for that profile and
   * is directly followed by stamping the same profile, and every stamp
   * directly follows the removal.
   */
  predicate CloseOutsPaired(t: seq<Effect>)
  {
    (forall i :: 0 <= i < |t| && t[i].DelFromQueue? ==>
      0 < i < |t| - 1 &&
      t[i - 1] in {Publish(NotifyChannel, NotifyMessage(t[i].profile, true)),
                   Publish(NotifyChannel, NotifyMessage(t[i].profile, false))} &&
      t[i + 1] == UpdReported(t[i].profile)) &&
    (forall i :: 0 <= i < |t| && t[i].UpdReported? ==>
      0 < i && t[i - 1] == DelFromQueue(t[i].profile))
  }

  lemma PairedConcat(a: seq<Effect>, b: seq<Effect>)
    requires CloseOutsPaired(a) && CloseOutsPaired(b)
    ensures CloseOutsPaired(a + b)
  {
  }

  lemma HandlePaired(host: Host, r: Received)
    ensures CloseOutsPaired(Handle(host, r).effects)
  {
    if r.Item? && Classify(r.kind, r.data).ReportRequest? {
      var profile := Classify(r.kind, r.data).profile;
      var p := Process(host, profile);
      ExitOnlyOnAbort(host, profile);
      if p.outcome.Finished? {
        PairedConcat(p.effects, CloseOut(profile, p.outcome.validCapture));
      }
    }
  }

  lemma {:induction false} ServeCloseOutsPaired(host: Host, items: seq<Received>)
    ensures CloseOutsPaired(ServeTrace(host, items))
  {
    if items != [] {
      HandlePaired(host, items[0]);
      if Handle(host, items[0]).Continue? {
        ServeCloseOutsPaired(host, items[1..]);
        PairedConcat(Handle(host, items[0]).effects, ServeTrace(host, items[1..]));
      }
    }
  }
}
