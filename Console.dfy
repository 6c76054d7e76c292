// The data logic of the console frame: the sample buffers it owns, the two
// acquisition loops that fill them, the bit decode used to draw the digital
// plot and the bit pattern written by a digital-output selection.
//
// The hardware is an oracle: whether the driver accepts each channel name is
// an input, and so is the finite sequence of samples a loop reads before the
// run flag clears (or a read raises, which also happens before anything is
// appended).  Each read carries the wall-clock millisecond value the loop
// takes right after it.
module Console {
  import opened SampleSeries
  import Daq

  /** One analog read of the four-channel task: one voltage per channel. */
  type Tuple4 = s: seq<real> | |s| == 4 witness [0.0, 0.0, 0.0, 0.0]

  datatype AnalogRead = AnalogRead(data: Tuple4, clock: int)

  /** One read of the digital input port: the port byte. */
  datatype DigitalRead = DigitalRead(port: bv8, clock: int)

  /** The values one analog channel delivered, in read order. */
  function Lane(rs: seq<AnalogRead>, i: nat): (r: seq<real>)
    requires i < 4
    ensures |r| == |rs| && forall k :: 0 <= k < |rs| ==> r[k] == rs[k].data[i]
  {
    seq(|rs|, k requires 0 <= k < |rs| => rs[k].data[i])
  }

  /** The port bytes of the digital reads, in read order. */
  function Ports(rs: seq<DigitalRead>): (r: seq<bv8>)
    ensures |r| == |rs| && forall k :: 0 <= k < |rs| ==> r[k] == rs[k].port
  {
    seq(|rs|, k requires 0 <= k < |rs| => rs[k].port)
  }

  /** The timestamps of a run: milliseconds since the run's origin. */
  function AnalogTimes(rs: seq<AnalogRead>, origin: int): (r: seq<int>)
    ensures |r| == |rs| && forall k :: 0 <= k < |rs| ==> r[k] == rs[k].clock - origin
  {
    seq(|rs|, k requires 0 <= k < |rs| => rs[k].clock - origin)
  }

  function DigitalTimes(rs: seq<DigitalRead>, origin: int): (r: seq<int>)
    ensures |r| == |rs| && forall k :: 0 <= k < |rs| ==> r[k] == rs[k].clock - origin
  {
    seq(|rs|, k requires 0 <= k < |rs| => rs[k].clock - origin)
  }

  /** The status text of a channel the driver rejected. */
  function NotAvailable(name: string): (r: string)
    ensures |r| == |name| + 15 && r[..|name|] == name
  {
    name + " not available."
  }

  /** The rejection message determines the channel it names, so a status
      that reports a rejection identifies exactly one channel name. */
  lemma NotAvailableNamesOne(a: string, b: string)
    requires NotAvailable(a) == NotAvailable(b)
    ensures a == b
  {
    assert |a| == |b|;
    assert a == NotAvailable(a)[..|a|];
  }

  /** The status names a rejected channel, and no later channel was rejected. */
  ghost predicate ReportsLastRejected(chans: seq<string>, accept: seq<bool>, status: string)
    requires |chans| == |accept|
  {
    exists i :: 0 <= i < |accept| && !accept[i] && status == NotAvailable(chans[i]) &&
                forall j :: i < j < |accept| ==> accept[j]
  }

  /** Bit `i` of `b`, as a mask test. */
  predicate BitSet(b: bv8, i: nat)
    requires i < 8
  {
    b & (1 << i) != 0
  }

  /** What one plot call receives: x values and y values. */
  datatype Trace = Trace(x: seq<int>, y: seq<real>)

  /** The decode of `update_plot`: for bit `index` of every sample byte, a
      point at `index + 0.5` when the bit is set and at `index` when clear. */
  method DecodeBits(samples: seq<bv8>) returns (bitValue: seq<seq<real>>)
    ensures |bitValue| == 4
    ensures forall i :: 0 <= i < 4 ==> |bitValue[i]| == |samples|
    ensures forall i, k :: 0 <= i < 4 && 0 <= k < |samples| ==>
              bitValue[i][k] == if BitSet(samples[k], i) then i as real + 0.5 else i as real
  {
    bitValue := [[], [], [], []];
    for index := 0 to 4
      invariant |bitValue| == 4
      invariant forall i :: index <= i < 4 ==> bitValue[i] == []
      invariant forall i :: 0 <= i < index ==> |bitValue[i]| == |samples|
      invariant forall i, k :: 0 <= i < index && 0 <= k < |samples| ==>
                  bitValue[i][k] == if BitSet(samples[k], i) then i as real + 0.5 else i as real
    {
      for n := 0 to |samples|
        invariant |bitValue| == 4
        invariant forall i :: index < i < 4 ==> bitValue[i] == []
        invariant forall i :: 0 <= i < index ==> |bitValue[i]| == |samples|
        invariant forall i, k :: 0 <= i < index && 0 <= k < |samples| ==>
                    bitValue[i][k] == if BitSet(samples[k], i) then i as real + 0.5 else i as real
        invariant |bitValue[index]| == n
        invariant forall k :: 0 <= k < n ==>
                    bitValue[index][k] == if BitSet(samples[k], index) then index as real + 0.5 else index as real
      {
        var byteValue := samples[n];
        var offsetedValue := ((byteValue >> index) & 1) as int as real * 0.5 + index as real;
        bitValue := bitValue[index := bitValue[index] + [offsetedValue]];
      }
    }
  }

  /** The bit pattern of `on_radio_select`: bit `index` is set when the second
      button of radio pair `index` is selected and cleared otherwise. */
  method RadioBitValues(second: seq<bool>) returns (bitValues: bv8)
    requires |second| == 4
    ensures bitValues < 16
    ensures forall i :: 0 <= i < 4 ==> (BitSet(bitValues, i) <==> second[i])
  {
    bitValues := 0;
    for index := 0 to 4
      invariant bitValues < 1 << index
      invariant forall i :: 0 <= i < index ==> (BitSet(bitValues, i) <==> second[i])
    {
      if second[index] {
        bitValues := bitValues | (1 << index);
      } else {
        bitValues := bitValues & !(1 << index);
      }
    }
  }

  /** Four bits are all a pattern below 16 has: two patterns that agree on
      them are equal, so RadioBitValues' contract fixes its result. */
  lemma LowBitsDetermine(x: bv8, y: bv8)
    requires x < 16 && y < 16
    requires forall i :: 0 <= i < 4 ==> (BitSet(x, i) <==> BitSet(y, i))
    ensures x == y
  {
    assert BitSet(x, 0) <==> BitSet(y, 0);
    assert BitSet(x, 1) <==> BitSet(y, 1);
    assert BitSet(x, 2) <==> BitSet(y, 2);
    assert BitSet(x, 3) <==> BitSet(y, 3);
  }

  /** One loop iteration on a lane, seen from the whole run: reading one more
      sample is one more append-evict step. */
  lemma LaneStep(rs: seq<AnalogRead>, k: nat, i: nat, d: int)
    requires k < |rs| && i < 4
    ensures Fill(Lane(rs[..k + 1], i), d) == AppendEvict(Fill(Lane(rs[..k], i), d), rs[k].data[i], d)
  {
    assert Lane(rs[..k + 1], i) == Lane(rs[..k], i) + [rs[k].data[i]];
    FillSnoc(Lane(rs[..k], i), rs[k].data[i], d);
  }

  /** One analog iteration keeps the lanes and the timestamps equal to the
      run so far, filled at depth `d`. */
  lemma AnalogStep(rs: seq<AnalogRead>, k: nat, origin: int, d: int,
                   lanes: seq<seq<real>>, times: seq<int>, lanes': seq<seq<real>>, times': seq<int>)
    requires k < |rs| && |lanes| == 4 && |lanes'| == 4
    requires forall i :: 0 <= i < 4 ==> lanes[i] == Fill(Lane(rs[..k], i), d)
    requires times == Fill(AnalogTimes(rs[..k], origin), d)
    requires forall i :: 0 <= i < 4 ==> lanes'[i] == AppendEvict(lanes[i], rs[k].data[i], d)
    requires times' == AppendEvict(times, rs[k].clock - origin, d)
    ensures forall i :: 0 <= i < 4 ==> lanes'[i] == Fill(Lane(rs[..k + 1], i), d)
    ensures times' == Fill(AnalogTimes(rs[..k + 1], origin), d)
  {
    forall i | 0 <= i < 4
      ensures lanes'[i] == Fill(Lane(rs[..k + 1], i), d)
    {
      LaneStep(rs, k, i, d);
    }
    AnalogTimesStep(rs, k, origin, d);
  }

  /** After a run the four lanes and the timestamps are equally long. */
  lemma AnalogLengthsAgree(rs: seq<AnalogRead>, origin: int, d: int)
    ensures forall i :: 0 <= i < 4 ==>
              |Fill(Lane(rs, i), d)| == |Fill(AnalogTimes(rs, origin), d)|
  {
    forall i | 0 <= i < 4
      ensures |Fill(Lane(rs, i), d)| == |Fill(AnalogTimes(rs, origin), d)|
    {
      FillLengthsAgree(Lane(rs, i), AnalogTimes(rs, origin), d);
    }
  }

  lemma AnalogTimesStep(rs: seq<AnalogRead>, k: nat, origin: int, d: int)
    requires k < |rs|
    ensures Fill(AnalogTimes(rs[..k + 1], origin), d)
         == AppendEvict(Fill(AnalogTimes(rs[..k], origin), d), rs[k].clock - origin, d)
  {
    assert AnalogTimes(rs[..k + 1], origin) == AnalogTimes(rs[..k], origin) + [rs[k].clock - origin];
    FillSnoc(AnalogTimes(rs[..k], origin), rs[k].clock - origin, d);
  }

  lemma PortsStep(rs: seq<DigitalRead>, k: nat, d: int)
    requires k < |rs|
    ensures Fill(Ports(rs[..k + 1]), d) == AppendEvict(Fill(Ports(rs[..k]), d), rs[k].port, d)
  {
    assert Ports(rs[..k + 1]) == Ports(rs[..k]) + [rs[k].port];
    FillSnoc(Ports(rs[..k]), rs[k].port, d);
  }

  lemma DigitalTimesStep(rs: seq<DigitalRead>, k: nat, origin: int, d: int)
    requires k < |rs|
    ensures Fill(DigitalTimes(rs[..k + 1], origin), d)
         == AppendEvict(Fill(DigitalTimes(rs[..k], origin), d), rs[k].clock - origin, d)
  {
    assert DigitalTimes(rs[..k + 1], origin) == DigitalTimes(rs[..k], origin) + [rs[k].clock - origin];
    FillSnoc(DigitalTimes(rs[..k], origin), rs[k].clock - origin, d);
  }

  /** The console frame's acquisition state.  The widgets it reads (channel
      names, sample depth, radio buttons) are parameters of its methods. */
  class DaqConsoleFrame {
    var analogSampleTimestamps: seq<int>
    var analogSamples: seq<seq<real>>
    var digitalSampleTimestamps: seq<int>
    var digitalSamples: seq<bv8>
    var sampleDepth: int
    var startTimestamp: int
    var status: string
    var addAiVoltageChanFailed: bool

    /** Four analog lanes, each paired index by index with the analog
        timestamps, and the digital samples paired with theirs. */
    ghost predicate Valid()
      reads this
    {
      |analogSamples| == 4 &&
      (forall i :: 0 <= i < 4 ==> |analogSamples[i]| == |analogSampleTimestamps|) &&
      |digitalSamples| == |digitalSampleTimestamps|
    }

    /** The buffers start empty.  The depth, the origin, the status and the
        failure flag only get their values when Run is pressed or a loop
        starts; the values given here are placeholders never read before. */
    constructor ()
      ensures Valid()
      ensures analogSampleTimestamps == [] && analogSamples == [[], [], [], []]
      ensures digitalSampleTimestamps == [] && digitalSamples == []
    {
      analogSampleTimestamps := [];
      analogSamples := [[], [], [], []];
      digitalSampleTimestamps := [];
      digitalSamples := [];
      sampleDepth := 100;
      startTimestamp := 0;
      status := "";
      addAiVoltageChanFailed := false;
    }

    /** Pressing Run: the status is reset, the depth is taken as typed (it is
        not checked) and the timestamp origin is the current clock.  Releasing
        the button changes none of the buffers. */
    method OnRunStopToggle(pressed: bool, depth: int, now: int)
      modifies this`status, this`sampleDepth, this`startTimestamp
      ensures pressed ==> status == "." && sampleDepth == depth && startTimestamp == now
      ensures !pressed ==> status == old(status) && sampleDepth == old(sampleDepth)
                           && startTimestamp == old(startTimestamp)
    {
      if pressed {
        status := ".";
        sampleDepth := depth;
        startTimestamp := now;
      }
    }

    /** The nested `add_ai_voltage_chan`: a rejected channel sets the shared
        failure flag and names itself in the status. */
    method AddAiVoltageChan(task: Daq.Task, name: string, accept: bool)
      modifies this`addAiVoltageChanFailed, this`status, task
      ensures task.attempted == old(task.attempted) + [name]
      ensures accept ==> addAiVoltageChanFailed == old(addAiVoltageChanFailed) && status == old(status)
      ensures !accept ==> addAiVoltageChanFailed && status == NotAvailable(name)
    {
      var ok := task.AddChan(name, accept);
      if !ok {
        addAiVoltageChanFailed := true;
        status := NotAvailable(name);
      }
    }

    /** `analog_data_collection_loop` for one run.  All four channels are
        offered to the driver; if any is rejected the loop returns with the
        previous run's buffers untouched.  Otherwise the task is started;
        when `task.start()` raises (`startOk` false) the thread ends there,
        before the buffers are cleared.  Otherwise the buffers are cleared
        and every read appends one value per lane and one timestamp, each
        series cut back to the sample depth. */
    method AnalogDataCollectionLoop(chans: seq<string>, accept: seq<bool>, startOk: bool,
                                    rs: seq<AnalogRead>)
      returns (task: Daq.Task)
      requires Valid() && |chans| == 4 && |accept| == 4
      modifies this
      ensures Valid() && fresh(task)
      ensures task.attempted == chans
      ensures addAiVoltageChanFailed <==> exists i :: 0 <= i < 4 && !accept[i]
      ensures addAiVoltageChanFailed ==> ReportsLastRejected(chans, accept, status)
      ensures !addAiVoltageChanFailed ==> status == old(status)
      ensures addAiVoltageChanFailed || !startOk ==>
                analogSamples == old(analogSamples) &&
                analogSampleTimestamps == old(analogSampleTimestamps)
      ensures !addAiVoltageChanFailed && startOk ==>
                analogSampleTimestamps == Fill(AnalogTimes(rs, startTimestamp), sampleDepth) &&
                forall i :: 0 <= i < 4 ==> analogSamples[i] == Fill(Lane(rs, i), sampleDepth)
      ensures digitalSamples == old(digitalSamples)
      ensures digitalSampleTimestamps == old(digitalSampleTimestamps)
      ensures sampleDepth == old(sampleDepth) && startTimestamp == old(startTimestamp)
    {
      task := new Daq.Task();
      AddAiVoltageChans(task, chans, accept);
      if addAiVoltageChanFailed || !startOk {
        return;
      }

      AcquireAnalog(rs);
    }

    /** The four `add_ai_voltage_chan` calls: every channel is offered, none
        is skipped after a rejection, and the flag records whether any was
        rejected; the status then names the last rejected one. */
    method AddAiVoltageChans(task: Daq.Task, chans: seq<string>, accept: seq<bool>)
      requires |chans| == 4 && |accept| == 4 && task.attempted == []
      modifies this`addAiVoltageChanFailed, this`status, task
      ensures task.attempted == chans
      ensures addAiVoltageChanFailed <==> exists i :: 0 <= i < 4 && !accept[i]
      ensures addAiVoltageChanFailed ==> ReportsLastRejected(chans, accept, status)
      ensures !addAiVoltageChanFailed ==> status == old(status)
    {
      addAiVoltageChanFailed := false;
      AddAiVoltageChan(task, chans[0], accept[0]);
      AddAiVoltageChan(task, chans[1], accept[1]);
      AddAiVoltageChan(task, chans[2], accept[2]);
      AddAiVoltageChan(task, chans[3], accept[3]);
      assert task.attempted == [] + [chans[0]] + [chans[1]] + [chans[2]] + [chans[3]];
      assert task.attempted == chans;
      if accept[0] && accept[1] && accept[2] && accept[3] {
        assert forall i :: 0 <= i < 4 ==> accept[i];
      } else {
        var i := if !accept[3] then 3 else if !accept[2] then 2 else if !accept[1] then 1 else 0;
        assert !accept[i] && status == NotAvailable(chans[i]);
        assert forall j :: i < j < 4 ==> accept[j];
      }
    }

    /** The `clear()` steps after a successful configuration, then the
        sampling `while` loop of the analog thread. */
    method AcquireAnalog(rs: seq<AnalogRead>)
      modifies this`analogSamples, this`analogSampleTimestamps
      ensures |analogSamples| == 4
      ensures forall i :: 0 <= i < 4 ==> |analogSamples[i]| == |analogSampleTimestamps|
      ensures analogSampleTimestamps == Fill(AnalogTimes(rs, startTimestamp), sampleDepth)
      ensures forall i :: 0 <= i < 4 ==> analogSamples[i] == Fill(Lane(rs, i), sampleDepth)
    {
      analogSampleTimestamps := [];
      analogSamples := [[], [], [], []];
      var d, origin := sampleDepth, startTimestamp;
      var k := 0;
      while k < |rs|
        invariant 0 <= k <= |rs|
        invariant |analogSamples| == 4
        invariant analogSampleTimestamps == Fill(AnalogTimes(rs[..k], origin), d)
        invariant forall j :: 0 <= j < 4 ==> analogSamples[j] == Fill(Lane(rs[..k], j), d)
      {
        ghost var lanes, times := analogSamples, analogSampleTimestamps;
        AppendAnalogRead(rs[k].data, rs[k].clock - origin, d);
        AnalogStep(rs, k, origin, d, lanes, times, analogSamples, analogSampleTimestamps);
        k := k + 1;
      }
      assert rs[..k] == rs;
      AnalogLengthsAgree(rs, origin, d);
    }

    /** The body of the analog `while` loop: one value appended to each lane
        and one timestamp to the timestamp lane, each cut back to depth `d`. */
    method AppendAnalogRead(data: Tuple4, timestamp: int, d: int)
      requires |analogSamples| == 4
      modifies this`analogSamples, this`analogSampleTimestamps
      ensures |analogSamples| == 4
      ensures forall i :: 0 <= i < 4 ==> analogSamples[i] == AppendEvict(old(analogSamples[i]), data[i], d)
      ensures analogSampleTimestamps == AppendEvict(old(analogSampleTimestamps), timestamp, d)
    {
      for i := 0 to 4
        invariant |analogSamples| == 4
        invariant forall j :: 0 <= j < i ==> analogSamples[j] == AppendEvict(old(analogSamples[j]), data[j], d)
        invariant forall j :: i <= j < 4 ==> analogSamples[j] == old(analogSamples[j])
        invariant analogSampleTimestamps == old(analogSampleTimestamps)
      {
        analogSamples := analogSamples[i := AppendEvict(analogSamples[i], data[i], d)];
      }
      analogSampleTimestamps := AppendEvict(analogSampleTimestamps, timestamp, d);
    }

    /** `digital_data_collection_loop` for one run: the same policy with one
        input port; a rejected port is named in the status and leaves the
        previous run's digital buffers untouched, and so does a `task.start()`
        that raises (`startOk` false). */
    method DigitalDataCollectionLoop(chan: string, accept: bool, startOk: bool,
                                     rs: seq<DigitalRead>)
      returns (task: Daq.Task)
      requires Valid()
      modifies this
      ensures Valid() && fresh(task)
      ensures task.attempted == [chan]
      ensures status == if accept then old(status) else NotAvailable(chan)
      ensures !accept || !startOk ==>
                digitalSamples == old(digitalSamples) &&
                digitalSampleTimestamps == old(digitalSampleTimestamps)
      ensures accept && startOk ==>
                digitalSamples == Fill(Ports(rs), sampleDepth) &&
                digitalSampleTimestamps == Fill(DigitalTimes(rs, startTimestamp), sampleDepth)
      ensures analogSamples == old(analogSamples)
      ensures analogSampleTimestamps == old(analogSampleTimestamps)
      ensures addAiVoltageChanFailed == old(addAiVoltageChanFailed)
      ensures sampleDepth == old(sampleDepth) && startTimestamp == old(startTimestamp)
    {
      task := new Daq.Task();
      var ok := task.AddChan(chan, accept);
      assert task.attempted == [chan];
      if !ok {
        status := NotAvailable(chan);
        return;
      }
      if !startOk {
        return;
      }

      AcquireDigital(rs);
    }

    /** The two `clear()` steps after the input port is accepted, then the
        sampling `while` loop of the digital thread. */
    method AcquireDigital(rs: seq<DigitalRead>)
      modifies this`digitalSamples, this`digitalSampleTimestamps
      ensures |digitalSamples| == |digitalSampleTimestamps|
      ensures digitalSamples == Fill(Ports(rs), sampleDepth)
      ensures digitalSampleTimestamps == Fill(DigitalTimes(rs, startTimestamp), sampleDepth)
    {
      digitalSampleTimestamps := [];
      digitalSamples := [];
      var d, origin := sampleDepth, startTimestamp;
      var k := 0;
      while k < |rs|
        invariant 0 <= k <= |rs|
        invariant digitalSamples == Fill(Ports(rs[..k]), d)
        invariant digitalSampleTimestamps == Fill(DigitalTimes(rs[..k], origin), d)
      {
        PortsStep(rs, k, d);
        digitalSamples := AppendEvict(digitalSamples, rs[k].port, d);
        DigitalTimesStep(rs, k, origin, d);
        digitalSampleTimestamps := AppendEvict(digitalSampleTimestamps, rs[k].clock - origin, d);
        k := k + 1;
      }
      assert rs[..k] == rs;
      FillLengthsAgree(Ports(rs), DigitalTimes(rs, origin), d);
    }

    /** What `update_plot` hands to the two plots: each analog lane against
        the analog timestamps, and each decoded bit against the digital
        timestamps; every trace pairs x and y values one to one. */
    method UpdatePlot() returns (analog: seq<Trace>, digital: seq<Trace>)
      requires Valid()
      ensures |analog| == 4 && |digital| == 4
      ensures forall i :: 0 <= i < 4 ==>
                analog[i].x == analogSampleTimestamps && analog[i].y == analogSamples[i] &&
                |analog[i].x| == |analog[i].y|
      ensures forall i :: 0 <= i < 4 ==>
                digital[i].x == digitalSampleTimestamps && |digital[i].y| == |digital[i].x|
      ensures forall i, k :: 0 <= i < 4 && 0 <= k < |digitalSamples| ==>
                digital[i].y[k] == if BitSet(digitalSamples[k], i) then i as real + 0.5 else i as real
    {
      analog := [];
      for index := 0 to 4
        invariant |analog| == index
        invariant forall i :: 0 <= i < index ==>
                    analog[i] == Trace(analogSampleTimestamps, analogSamples[i])
      {
        analog := analog + [Trace(analogSampleTimestamps, analogSamples[index])];
      }
      var bitValue := DecodeBits(digitalSamples);
      digital := [];
      for index := 0 to 4
        invariant |digital| == index
        invariant forall i :: 0 <= i < index ==>
                    digital[i] == Trace(digitalSampleTimestamps, bitValue[i])
      {
        digital := digital + [Trace(digitalSampleTimestamps, bitValue[index])];
      }
    }

    /** `on_radio_select`: the status is reset, the bit pattern is computed
        from the radio pairs, and it is written once if the output channel is
        accepted and the task starts; a rejected channel is named in the
        status and nothing is written, and a `task.start()` that raises
        (`startOk` false) leaves the status "." and writes nothing. */
    method OnRadioSelect(second: seq<bool>, chan: string, accept: bool, startOk: bool)
      returns (bitValues: bv8, task: Daq.Task)
      requires |second| == 4
      modifies this`status
      ensures fresh(task)
      ensures bitValues < 16
      ensures forall i :: 0 <= i < 4 ==> (BitSet(bitValues, i) <==> second[i])
      ensures task.attempted == [chan]
      ensures task.writes == if accept && startOk then [bitValues] else []
      ensures status == if accept then "." else NotAvailable(chan)
    {
      bitValues := RadioBitValues(second);
      task := new Daq.Task();
      status := ".";
      var ok := task.AddChan(chan, accept);
      if !ok {
        status := NotAvailable(chan);
        return;
      }
      if !startOk {
        return;
      }
      task.Write(bitValues);
    }
  }
}
