// Worked runs of the console, checked against the contracts alone.
module Scenarios {
  import opened SampleSeries
  import opened Console

  /** Depth 3: three samples taken at 0, 10 and 20 ms are kept in order; a
      fourth at 30 ms evicts the one taken at 0 ms. */
  lemma DepthThreeEviction()
    ensures Fill([0, 10, 20], 3) == [0, 10, 20]
    ensures Fill([0, 10, 20, 30], 3) == [10, 20, 30]
  {
    FillKeepsNewest([0, 10, 20], 3);
    FillKeepsNewest([0, 10, 20, 30], 3);
  }

  /** Reads taken 0, 10, 20 and 30 ms after the origin leave, at depth 3,
      the timestamps 10, 20 and 30. */
  lemma FourReadsAtDepthThree(rs: seq<AnalogRead>)
    requires |rs| == 4
    requires rs[0].clock == 1000 && rs[1].clock == 1010 && rs[2].clock == 1020 && rs[3].clock == 1030
    ensures Fill(AnalogTimes(rs, 1000), 3) == [10, 20, 30]
  {
    var times := AnalogTimes(rs, 1000);
    assert times == [0, 10, 20, 30];
    DepthThreeEviction();
  }

  /** The same reads leave, at depth 3, the last three voltages of the first
      channel: the value lanes evict in step with the timestamps. */
  lemma FirstLaneAtDepthThree(rs: seq<AnalogRead>)
    requires |rs| == 4
    requires rs[0].data[0] == 1.0 && rs[1].data[0] == 5.0 && rs[2].data[0] == 9.0 && rs[3].data[0] == 13.0
    ensures Fill(Lane(rs, 0), 3) == [5.0, 9.0, 13.0]
  {
    var lane := Lane(rs, 0);
    assert lane == [1.0, 5.0, 9.0, 13.0];
    FillKeepsNewest(lane, 3);
  }

  method AnalogRunOfFourReads()
  {
    var frame := new DaqConsoleFrame();
    frame.OnRunStopToggle(true, 3, 1000);
    var rs := [AnalogRead([1.0, 2.0, 3.0, 4.0], 1000), AnalogRead([5.0, 6.0, 7.0, 8.0], 1010),
               AnalogRead([9.0, 10.0, 11.0, 12.0], 1020), AnalogRead([13.0, 14.0, 15.0, 16.0], 1030)];
    var chans := ["cDAQ1Mod1/ai0", "cDAQ1Mod1/ai1", "cDAQ1Mod5/ai0", "cDAQ1Mod5/ai1"];
    var task := frame.AnalogDataCollectionLoop(chans, [true, true, true, true], true, rs);
    assert !frame.addAiVoltageChanFailed;
    FourReadsAtDepthThree(rs);
    FirstLaneAtDepthThree(rs);
    assert frame.analogSampleTimestamps == [10, 20, 30];
    assert frame.analogSamples[0] == [5.0, 9.0, 13.0];
    // a second run whose `task.start()` raises keeps the first run's buffers
    var again := frame.AnalogDataCollectionLoop(chans, [true, true, true, true], false, rs[..1]);
    assert frame.analogSampleTimestamps == [10, 20, 30];
  }

  method AnalogRunWithRejectedChannel()
  {
    var frame := new DaqConsoleFrame();
    frame.OnRunStopToggle(true, 3, 1000);
    var rs := [AnalogRead([1.0, 2.0, 3.0, 4.0], 1000)];
    var chans := ["ai0", "ai1", "bad2", "bad3"];
    var accept := [true, true, false, false];
    var task := frame.AnalogDataCollectionLoop(chans, accept, true, rs);
    assert !accept[2];
    assert task.attempted == chans;
    assert frame.analogSampleTimestamps == [];
    assert frame.status == NotAvailable("bad3") by {
      var i :| 0 <= i < 4 && !accept[i] && frame.status == NotAvailable(chans[i]) &&
               forall j :: i < j < 4 ==> accept[j];
      assert !accept[3];
    }
  }

  method DigitalDecode()
  {
    var samples: seq<bv8> := [1, 3, 2];
    var traces := DecodeBits(samples);
    assert samples[0] == 1 && samples[1] == 3 && samples[2] == 2;
    assert BitSet(1, 0) && BitSet(3, 0) && !BitSet(2, 0);
    assert !BitSet(1, 1) && BitSet(3, 1) && BitSet(2, 1);
    assert traces[0][0] == 0.5 && traces[0][1] == 0.5 && traces[0][2] == 0.0;
    assert traces[0] == [0.5, 0.5, 0.0];
    assert traces[1][0] == 1.0 && traces[1][1] == 1.5 && traces[1][2] == 1.5;
    assert traces[1] == [1.0, 1.5, 1.5];
  }

  method DigitalOutputPattern()
  {
    var frame := new DaqConsoleFrame();
    var bits, task := frame.OnRadioSelect([true, false, true, false], "cDAQ1Mod2/port0", true, true);
    assert BitSet(5, 0) && !BitSet(5, 1) && BitSet(5, 2) && !BitSet(5, 3);
    LowBitsDetermine(bits, 5);
    assert task.writes == [0x05];
    var _, rejected := frame.OnRadioSelect([true, false, true, false], "nowhere", false, true);
    assert rejected.writes == [];
    var _, unstarted := frame.OnRadioSelect([true, false, true, false], "cDAQ1Mod2/port0", true, false);
    assert unstarted.writes == [] && frame.status == ".";
  }
}
