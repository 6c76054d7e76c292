// The driver's task object, reduced to what the console can observe of it.
// Whether the driver accepts a channel name is decided by the hardware, so it
// is an input (`accept`) of AddChan; the task records every name it was asked
// to add, the names it accepted and every value written.  Whether
// `task.start()` raises is an input of the console's methods that start a
// task; `task.stop()` is not modelled.
module Daq {

  class Task {
    var attempted: seq<string>
    var channels: seq<string>
    var writes: seq<bv8>

    /** `nidaqmx.Task()`: a fresh task with no channels. */
    constructor ()
      ensures attempted == [] && channels == [] && writes == []
    {
      attempted, channels, writes := [], [], [];
    }

    /** `add_ai_voltage_chan`, `add_di_chan` or `add_do_chan`; a rejected name
        is reported as `ok == false`, the DaqError the driver raises. */
    method AddChan(name: string, accept: bool) returns (ok: bool)
      modifies this
      ensures ok == accept
      ensures attempted == old(attempted) + [name]
      ensures channels == if accept then old(channels) + [name] else old(channels)
      ensures writes == old(writes)
    {
      attempted := attempted + [name];
      if accept {
        channels := channels + [name];
      }
      ok := accept;
    }

    /** `task.write(value)` on a digital output task. */
    method Write(value: bv8)
      modifies this`writes
      ensures writes == old(writes) + [value]
    {
      writes := writes + [value];
    }
  }
}
