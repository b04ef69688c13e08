/**
 The store-facing writer. Each `WriteProductDatapoint` call translates one record and
 submits a one-element batch; the network client is replaced by a log of every
 point submitted so far.
 */
module InfluxWriter {
  import opened ProductPoint

  class InfluxDB {
    /** Every point handed to the store client, oldest first. */
    var written: seq<Point>

    /** A writer whose client is connected and has been sent nothing yet. */
    constructor ()
      ensures written == []
    {
      written := [];
    }

    /**
     Translates `info` under the measurement name `table` (the value the source reads from
     its environment) and submits exactly that one point, stamped with the clock reading
     `now`. Earlier submissions are left as they were.
     */
    method WriteProductDatapoint(table: string, info: ProductInfo, now: Instant)
      modifies this`written
      ensures written == old(written) + [BuildProductPoint(table, info, now)]
    {
      var point := BuildProductPoint(table, info, now);
      var points := [point];
      written := written + points;
    }
  }
}
