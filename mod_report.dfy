// The worker process of mod_report: `process_profile_traffic` and the
// `__main__` receive loop, step by step, each proved to produce exactly the
// effects its specification (Traffic.Process, Dispatch.ServeTrace) describes.

module ModReport {
  import opened Trace
  import opened Text
  import opened Traffic
  import opened Dispatch

  lemma AppendAssoc(a: seq<Effect>, b: seq<Effect>, c: seq<Effect>)
    ensures (a + b) + c == a + (b + c)
  {
  }

  /**
   * One run of the worker. `host` is the machine it runs on; `trace` is the
   * log of everything it has done to the world so far (file system,
   * external tools, Redis), in order.
   */
  class Worker {
    const host: Host
    var trace: seq<Effect>

    constructor (host: Host)
      ensures this.host == host && trace == []
    {
      this.host := host;
      trace := [];
    }

    /** `process_profile_traffic(profile, host.root)`. */
    method ProcessProfileTraffic(profile: string) returns (outcome: Outcome)
      modifies this
      ensures trace == old(trace) + Process(host, profile).effects
      ensures outcome == Process(host, profile).outcome
    {
      var validCapture := false;
      var dir := ProfileDir(host.root, profile);
      if dir !in host.dirs {
        // os.chdir raises; the handler calls sys.exit(-1)
        trace := trace + [Exit(-1)];
        return Aborted;
      }
      trace := trace + [ChangeDir(dir)];
      var reportSource := ReportSource(profile);
      var reportBuild := ReportBuild(profile);
      var captures := Glob(host.dirs[dir]);
      for i := 0 to |captures|
        invariant !validCapture
        invariant forall j :: 0 <= j < i ==> !IsValidCapture(captures[j])
        invariant trace == old(trace) + [ChangeDir(dir)]
      {
        var capture := captures[i];
        if capture.size < MinCaptureSize {
          continue;
        }
        validCapture := true;
        assert IsFirstValid(captures, i);
        if ReportPath(host, profile) in host.unwritable {
          // open(report_source, "wb") raises; the handler calls sys.exit(-1)
          trace := trace + [Exit(-1)];
          return Aborted;
        }
        if !host.summarizerInstalled {
          trace := trace + [Exit(-1)];
          return Aborted;
        }
        trace := trace + [Summarize(capture.file, reportSource)];
        if !host.pandocInstalled {
          trace := trace + [Exit(-1)];
          return Aborted;
        }
        trace := trace + [Render(reportSource, reportBuild)];
        break;
      }
      return Finished(validCapture);
    }

    /**
     * The body of the receive loop for one item; `stop` says whether the
     * process has exited.
     */
    method HandleItem(r: Received) returns (stop: bool)
      modifies this
      ensures trace == old(trace) + Handle(host, r).effects
      ensures stop == Handle(host, r).Stop?
    {
      match r
      case ListenFailed =>
        // listen() raised: the outer handler runs
        trace := trace + Teardown;
        return true;
      case Item(kind, data) =>
        if kind == "message" {
          if data == ProbeToken {
            trace := trace + [Publish(StatusChannel, Online)];
            return false;
          } else if Contains(data, ReportMarker) {
            var name := ProfileName(data);
            if name.None? {
              // split(':')[1] raises IndexError: the outer handler runs
              trace := trace + Teardown;
              return true;
            }
            var profile := name.value;
            assert Classify(kind, data) == ReportRequest(profile);
            var outcome := ProcessProfileTraffic(profile);
            if outcome.Aborted? {
              return true;
            }
            if !outcome.validCapture {
              trace := trace + [Publish(NotifyChannel, "send_empty_capture_email:" + profile)];
              trace := trace + [DelFromQueue(profile)];
              trace := trace + [UpdReported(profile)];
              return false;
            }
            trace := trace + [Publish(NotifyChannel, "send_report_profile_email:" + profile)];
            trace := trace + [DelFromQueue(profile)];
            trace := trace + [UpdReported(profile)];
            return false;
          }
        }
        assert Classify(kind, data) == Ignored;
        return false;
    }

    /** The `for item in db_subscriber.listen()` loop and what follows it. */
    method Serve(items: seq<Received>)
      modifies this
      ensures trace == old(trace) + ServeTrace(host, items)
    {
      for i := 0 to |items|
        invariant trace + ServeTrace(host, items[i..]) == old(trace) + ServeTrace(host, items)
      {
        ghost var before := trace;
        ServeTraceAt(host, items, i);
        var stop := HandleItem(items[i]);
        if stop {
          return;
        }
        AppendAssoc(before, Handle(host, items[i]).effects, ServeTrace(host, items[i + 1..]));
      }
      assert items[|items|..] == [];
      trace := trace + Shutdown;
    }

    /** The whole `__main__` block after reading the configuration. */
    method Run(transportReady: bool, items: seq<Received>)
      modifies this
      ensures trace == old(trace) + RunTrace(host, transportReady, items)
    {
      if !transportReady {
        // connect, subscriber creation or subscription raised: sys.exit(-1)
        trace := trace + [Exit(-1)];
        return;
      }
      Serve(items);
    }
  }
}
