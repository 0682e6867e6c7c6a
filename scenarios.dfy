// Concrete runs of the worker on small machines, stated as whole effect traces.

module Scenarios {
  import opened Trace
  import opened Traffic
  import opened Dispatch

  const Root := "/data"

  /** A writable machine with both tools installed and one profile directory. */
  function HostWith(profile: string, entries: seq<Capture>): Host
  {
    Host(Root, map[ProfileDir(Root, profile) := entries], {}, true, true)
  }

  /** 25 bytes is a usable capture, 24 bytes is not. */
  lemma ThresholdIsInclusive()
    ensures Process(HostWith("p", [Capture("a.pcap", 25)]), "p")
         == Processing([ChangeDir("/data/p"), Summarize("a.pcap", "p.md"), Render("p.md", "p.pdf")], Finished(true))
    ensures Process(HostWith("p", [Capture("a.pcap", 24)]), "p")
         == Processing([ChangeDir("/data/p")], Finished(false))
  {
    assert IsPcapName("a.pcap");
    assert ProfileDir(Root, "p") == "/data/p";
    assert Glob([Capture("a.pcap", 25)]) == [Capture("a.pcap", 25)];
    assert FirstValid([Capture("a.pcap", 25)]) == Some(0);
    assert Glob([Capture("a.pcap", 24)]) == [Capture("a.pcap", 24)];
    assert FirstValid([Capture("a.pcap", 24)]) == None;
    assert ReportSource("p") == "p.md" && ReportBuild("p") == "p.pdf";
  }

  /** Only `*.pcap` entries without a leading dot are captures. */
  lemma OnlyVisiblePcapsAreCaptures()
    ensures Process(HostWith("p", [Capture("notes.txt", 900), Capture(".old.pcap", 900)]), "p").outcome
         == Finished(false)
  {
  }

  lemma AliceProcess()
    ensures Process(HostWith("alice", [Capture("alice.pcap", 10)]), "alice")
         == Processing([ChangeDir("/data/alice")], Finished(false))
  {
    assert IsPcapName("alice.pcap");
    assert ProfileDir(Root, "alice") == "/data/alice";
    assert Glob([Capture("alice.pcap", 10)]) == [Capture("alice.pcap", 10)];
    assert FirstValid([Capture("alice.pcap", 10)]) == None;
  }

  lemma AliceWords()
    ensures "report_profile:alice" == ReportMarker + ":" + "alice"
    ensures CloseOut("alice", false)
         == [Publish("mod_comm_send_check", "send_empty_capture_email:alice"),
             DelFromQueue("alice"), UpdReported("alice")]
  {
    assert NotifyMessage("alice", false) == "send_empty_capture_email:alice";
  }

  /**
   * Profile `alice` has one 10-byte capture: no report, the empty-capture
   * notice, then the bookkeeping, then the clean end of the stream.
   */
  lemma AliceHasOnlyAnEmptyCapture(host: Host, items: seq<Received>)
    requires host == HostWith("alice", [Capture("alice.pcap", 10)])
    requires items == [Item("message", "report_profile:alice")]
    ensures ServeTrace(host, items)
         == [ChangeDir("/data/alice")]
          + [Publish("mod_comm_send_check", "send_empty_capture_email:alice"), DelFromQueue("alice"), UpdReported("alice")]
          + [Publish("services_status", "MOD_REPORT:offline"), CloseSubscriber, CloseClient, Exit(0)]
  {
    AliceProcess();
    AliceWords();
    SingleRequestTrace(host, "alice");
  }

  lemma BobProcess()
    ensures Process(HostWith("bob", [Capture("bob.pcap", 10000), Capture("late.pcap", 5)]), "bob")
         == Processing([ChangeDir("/data/bob"), Summarize("bob.pcap", "bob.md"), Render("bob.md", "bob.pdf")],
                       Finished(true))
  {
    var entries := [Capture("bob.pcap", 10000), Capture("late.pcap", 5)];
    assert IsPcapName("bob.pcap") && IsPcapName("late.pcap");
    assert Glob(entries) == entries;
    assert FirstValid(entries) == Some(0);
    assert ProfileDir(Root, "bob") == "/data/bob";
    assert ReportSource("bob") == "bob.md" && ReportBuild("bob") == "bob.pdf";
  }

  lemma BobWords()
    ensures "report_profile:bob" == ReportMarker + ":" + "bob"
    ensures CloseOut("bob", true)
         == [Publish("mod_comm_send_check", "send_report_profile_email:bob"),
             DelFromQueue("bob"), UpdReported("bob")]
  {
    assert NotifyMessage("bob", true) == "send_report_profile_email:bob";
  }

  /**
   * Profile `bob` has a 10,000-byte capture and then a 5-byte one: exactly
   * one summary and one rendering, of the first, and the report notice.
   */
  lemma BobGetsOneReport(host: Host, items: seq<Received>)
    requires host == HostWith("bob", [Capture("bob.pcap", 10000), Capture("late.pcap", 5)])
    requires items == [Item("message", "report_profile:bob")]
    ensures ServeTrace(host, items)
         == [ChangeDir("/data/bob"), Summarize("bob.pcap", "bob.md"), Render("bob.md", "bob.pdf")]
          + [Publish("mod_comm_send_check", "send_report_profile_email:bob"), DelFromQueue("bob"), UpdReported("bob")]
          + [Publish("services_status", "MOD_REPORT:offline"), CloseSubscriber, CloseClient, Exit(0)]
  {
    BobProcess();
    BobWords();
    SingleRequestTrace(host, "bob");
  }
}
