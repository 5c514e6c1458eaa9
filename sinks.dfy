/** The output sink collaborator (`FeatureSink`): it accepts records until it is closed. */
module Sinks {
  import opened Features

  class Sink {
    /** Every record written so far, in order. */
    var written: seq<Feature>
    var closed: bool

    constructor ()
      ensures written == [] && !closed
    {
      written := [];
      closed := false;
    }

    method Write(f: Feature)
      requires !closed
      modifies this
      ensures written == old(written) + [f] && !closed
    {
      written := written + [f];
    }

    method Close()
      modifies this
      ensures closed && written == old(written)
    {
      closed := true;
    }
  }
}
